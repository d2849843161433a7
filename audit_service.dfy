/** AuditService: audit applications and audit entries, returned as bare sets.
    Every failure short of an exception degrades to the empty set. The service
    catches nothing, so an exception from the audit API, or a null pointer met
    on the way, escapes to the caller. Audit applications (A) and audit
    entries (E) are abstract payloads compared by equality. */
module AuditService {
  import opened Upstream

  /** The limit the default-limit operations pass on. */
  const DefaultLimit: int := 100

  /** The two audit-entry listings the service asks the audit API for:
      listAuditEntriesForAuditApp(appId, ..., limit, where, ...) and
      listAuditEntriesForNode(nodeId, ..., limit, ...). The other arguments
      are constants forwarded upstream. */
  datatype EntriesRequest = ForApp(appId: string, limit: int, where: Option<string>) | ForNode(nodeId: string, limit: int)

  /** A listing is degraded to the empty set: non-2xx status, null body, null
      list, or a null or empty entries list. */
  predicate Degraded<T>(reply: Outcome<Paging<T>>)
  {
    reply.Resp? &&
    (!Is2xxSuccessful(reply.status.code) || ListedEntries(reply.body).None? || ListedEntries(reply.body).value == [])
  }

  /** A payload occurs in the entries: some entry is non-null and wraps it. */
  ghost predicate Listed<T>(x: T, entries: seq<Option<Entry<T>>>)
  {
    exists i :: 0 <= i < |entries| && entries[i] == Some(Entry(Some(x)))
  }

  /** What collecting the payloads of a non-empty entries list delivers: a
      null pointer exactly when some entry is null; otherwise exactly the set
      of non-null payloads, no larger than the list. */
  ghost predicate CollectsPayloads<T>(entries: seq<Option<Entry<T>>>, r: Returned<set<T>>)
  {
    (r.Raised? <==> exists i :: 0 <= i < |entries| && entries[i].None?) &&
    (r.Raised? ==> r.exception == NullPointer) &&
    (r.Value? ==>
      |r.value| <= |entries| &&
      (forall x :: x in r.value ==> Listed(x, entries)) &&
      (forall i :: 0 <= i < |entries| && entries[i].Some? && entries[i].value.entry.Some? ==>
         entries[i].value.entry.value in r.value))
  }

  /** extractAuditApps / extractAuditEntries: map each entry to its payload,
      drop the null payloads, collect into a set. A null entry in the list
      makes the mapping step throw. */
  function Payloads<T>(entries: seq<Option<Entry<T>>>): (r: Returned<set<T>>)
    ensures CollectsPayloads(entries, r)
  {
    if entries == [] then Value({})
    else if entries[0].None? then Raised(NullPointer)
    else
      match Payloads(entries[1..])
      case Raised(e) =>
        assert forall i :: 0 <= i < |entries| - 1 ==> entries[1..][i] == entries[i + 1];
        Raised(e)
      case Value(rest) =>
        assert forall i :: 1 <= i < |entries| ==> entries[i] == entries[1..][i - 1];
        assert forall i :: 0 <= i < |entries| - 1 ==> entries[1..][i] == entries[i + 1];
        match entries[0].value.entry
        case None => Value(rest)
        case Some(x) => Value({x} + rest)
  }

  /** getAuditApps: the empty set in every degraded case; otherwise exactly the
      non-null application payloads of the entries, duplicates collapsed. */
  function GetAuditApps<A>(reply: Outcome<Paging<A>>): (r: Returned<set<A>>)
    ensures reply.Threw? ==> r == Raised(UpstreamError(reply.message))
    ensures Degraded(reply) ==> r == Value({})
    ensures reply.Resp? && !Degraded(reply) ==> CollectsPayloads(ListedEntries(reply.body).value, r)
  {
    match reply
    case Threw(message) => Raised(UpstreamError(message))
    case Resp(status, body) =>
      if !Is2xxSuccessful(status.code) then Value({})
      else if body.None? then Value({})
      else if body.value.list.None? then Value({})
      else
        var entries := body.value.list.value.entries;
        if entries.None? || entries.value == [] then Value({})
        else Payloads(entries.value)
  }

  /** What the audit-entry listings deliver for a reply: the upstream
      exception escapes; a 2xx reply whose body has a null list raises a null
      pointer, because the list is not checked for null; the other degraded
      replies give the empty set; otherwise the payloads are collected. */
  ghost predicate ListsAuditEntries<E>(reply: Outcome<Paging<E>>, r: Returned<set<E>>)
  {
    (reply.Threw? ==> r == Raised(UpstreamError(reply.message))) &&
    (reply.Resp? && Is2xxSuccessful(reply.status.code) && reply.body.Some? && reply.body.value.list.None? ==>
       r == Raised(NullPointer)) &&
    (reply.Resp? && !Is2xxSuccessful(reply.status.code) ==> r == Value({})) &&
    (reply.Resp? && reply.body.None? ==> r == Value({})) &&
    (reply.Resp? && Is2xxSuccessful(reply.status.code) && reply.body.Some? && reply.body.value.list.Some? ==>
       if Degraded(reply) then r == Value({}) else CollectsPayloads(ListedEntries(reply.body).value, r))
  }

  /** The shared body of getXAuditEntriesWhereY and getXAuditEntriesForSpecificNode. */
  function AuditEntriesOf<E>(reply: Outcome<Paging<E>>): (r: Returned<set<E>>)
    ensures ListsAuditEntries(reply, r)
  {
    match reply
    case Threw(message) => Raised(UpstreamError(message))
    case Resp(status, body) =>
      if !Is2xxSuccessful(status.code) then Value({})
      else if body.None? then Value({})
      else if body.value.list.None? then Raised(NullPointer)
      else
        var entries := body.value.list.value.entries;
        if entries.None? || entries.value == [] then Value({})
        else Payloads(entries.value)
  }

  /** The audit-entry listings differ from getAuditApps in one case only: a
      2xx reply whose body has a null list. */
  lemma EntriesDifferFromAppsOnlyOnNullList<T>(reply: Outcome<Paging<T>>)
    ensures AuditEntriesOf(reply) ==
      if reply.Resp? && Is2xxSuccessful(reply.status.code) && reply.body.Some? && reply.body.value.list.None?
      then Raised(NullPointer)
      else GetAuditApps(reply)
  {
  }

  /** getXAuditEntriesWhereY(appId, limit, where). */
  function GetXAuditEntriesWhereY<E>(api: EntriesRequest -> Outcome<Paging<E>>, appId: string, limit: int, where: Option<string>): (r: Returned<set<E>>)
    ensures ListsAuditEntries(api(ForApp(appId, limit, where)), r)
  {
    AuditEntriesOf(api(ForApp(appId, limit, where)))
  }

  /** getXAuditEntries(appId, limit): no where clause. */
  function GetXAuditEntries<E>(api: EntriesRequest -> Outcome<Paging<E>>, appId: string, limit: int): (r: Returned<set<E>>)
    ensures r == GetXAuditEntriesWhereY(api, appId, limit, None)
    ensures ListsAuditEntries(api(ForApp(appId, limit, None)), r)
  {
    GetXAuditEntriesWhereY(api, appId, limit, None)
  }

  /** getAuditEntries(appId): the default limit of 100 and no where clause. */
  function GetAuditEntries<E>(api: EntriesRequest -> Outcome<Paging<E>>, appId: string): (r: Returned<set<E>>)
    ensures r == GetXAuditEntriesWhereY(api, appId, DefaultLimit, None)
    ensures ListsAuditEntries(api(ForApp(appId, DefaultLimit, None)), r)
  {
    GetXAuditEntries(api, appId, DefaultLimit)
  }

  /** getXAuditEntriesForSpecificNode(nodeId, limit). */
  function GetXAuditEntriesForSpecificNode<E>(api: EntriesRequest -> Outcome<Paging<E>>, nodeId: string, limit: int): (r: Returned<set<E>>)
    ensures ListsAuditEntries(api(ForNode(nodeId, limit)), r)
  {
    AuditEntriesOf(api(ForNode(nodeId, limit)))
  }

  /** getAuditEntriesForSpecificNode(nodeId): the default limit of 100. */
  function GetAuditEntriesForSpecificNode<E>(api: EntriesRequest -> Outcome<Paging<E>>, nodeId: string): (r: Returned<set<E>>)
    ensures r == GetXAuditEntriesForSpecificNode(api, nodeId, DefaultLimit)
    ensures ListsAuditEntries(api(ForNode(nodeId, DefaultLimit)), r)
  {
    GetXAuditEntriesForSpecificNode(api, nodeId, DefaultLimit)
  }

  /** A non-empty answer only ever comes from a 2xx reply with a non-empty
      entries list, and holds no more payloads than there were entries. */
  lemma NonEmptyMeansDelivered<T>(reply: Outcome<Paging<T>>)
    ensures AuditEntriesOf(reply).Value? && AuditEntriesOf(reply).value != {} ==>
      reply.Resp? && Is2xxSuccessful(reply.status.code) &&
      ListedEntries(reply.body).Some? && 0 < |AuditEntriesOf(reply).value| <= |ListedEntries(reply.body).value|
  {
  }
}
