/** QueryService: look files up by name through the queries API's findNodes.
    Both operations return bare values and degrade to fixed strings or
    placeholder nodes; neither catches anything, so an exception from the API,
    or a null pointer met in the stream, escapes to the caller. */
module QueryService {
  import opened Upstream

  /** The reply to queriesApi.findNodes(fileName, ...): a NodePaging. */
  type QueryReply = Outcome<Paging<Node>>

  const ErrorRetrievingNodeId: string := "Error retrieving node ID"
  const NodeIdNotFound: string := "Node ID not found"
  const ErrorRetrievingNodes: string := "Error retrieving nodes"
  const NodesNotFound: string := "Nodes not found"

  /** getNodeIdForSpecificFile: the id of the first entry's node. A non-2xx
      status gives a fixed error text; a null body, list or entries, an empty
      list, a null node or a null id give the not-found text; a null first
      entry makes findFirst throw. */
  function GetNodeIdForSpecificFile(reply: QueryReply): (r: Returned<string>)
    ensures reply.Threw? ==> r == Raised(UpstreamError(reply.message))
    ensures reply.Resp? && !Is2xxSuccessful(reply.status.code) ==> r == Value(ErrorRetrievingNodeId)
    ensures reply.Resp? && Is2xxSuccessful(reply.status.code) && ListedEntries(reply.body).None? ==>
      r == Value(NodeIdNotFound)
    ensures reply.Resp? && Is2xxSuccessful(reply.status.code) && ListedEntries(reply.body).Some? ==>
      var entries := ListedEntries(reply.body).value;
      r == if entries == [] then Value(NodeIdNotFound)
           else if entries[0].None? then Raised(NullPointer)
           else match entries[0].value.entry
             case None => Value(NodeIdNotFound)
             case Some(node) => Value(JavaOrElse(node.id, NodeIdNotFound))
  {
    match reply
    case Threw(message) => Raised(UpstreamError(message))
    case Resp(status, body) =>
      if !Is2xxSuccessful(status.code) then Value(ErrorRetrievingNodeId)
      else if body.None? || body.value.list.None? || body.value.list.value.entries.None? then Value(NodeIdNotFound)
      else FirstNodeId(body.value.list.value.entries.value)
  }

  /** Optional.orElse. */
  function JavaOrElse(s: Option<string>, fallback: string): string
  {
    if s.Some? then s.value else fallback
  }

  /** The id of the first entry's node, or the not-found text when the list is
      empty or the first entry holds no node or no id. A null first entry is
      what findFirst refuses, so it throws. */
  function FirstNodeId(entries: seq<Option<Entry<Node>>>): Returned<string>
  {
    if entries == [] then Value(NodeIdNotFound)
    else if entries[0].None? then Raised(NullPointer)
    else if entries[0].value.entry.None? then Value(NodeIdNotFound)
    else if entries[0].value.entry.value.id.None? then Value(NodeIdNotFound)
    else Value(entries[0].value.entry.value.id.value)
  }

  /** Only the first entry is ever looked at: entries after it do not change the answer. */
  lemma OnlyFirstEntryMatters(status: Status, e: Option<Entry<Node>>, rest1: seq<Option<Entry<Node>>>, rest2: seq<Option<Entry<Node>>>)
    ensures GetNodeIdForSpecificFile(Resp(status, Some(Paging(Some(PagingList(Some([e] + rest1))))))) ==
            GetNodeIdForSpecificFile(Resp(status, Some(Paging(Some(PagingList(Some([e] + rest2)))))))
  {
  }

  /** The node of each entry, in order, with null nodes kept. A null entry
      makes the mapping step throw. */
  function NodesOf(entries: seq<Option<Entry<Node>>>): (r: Returned<seq<Option<Node>>>)
    ensures r.Raised? <==> exists i :: 0 <= i < |entries| && entries[i].None?
    ensures r.Raised? ==> r.exception == NullPointer
    ensures r.Value? ==> |r.value| == |entries|
    ensures r.Value? ==> forall i :: 0 <= i < |entries| ==> r.value[i] == entries[i].value.entry
  {
    if entries == [] then Value([])
    else if entries[0].None? then Raised(NullPointer)
    else
      match NodesOf(entries[1..])
      case Raised(e) =>
        assert forall i :: 0 <= i < |entries| - 1 ==> entries[1..][i] == entries[i + 1];
        Raised(e)
      case Value(rest) =>
        assert forall i :: 0 <= i < |entries| - 1 ==> entries[1..][i] == entries[i + 1];
        Value([entries[0].value.entry] + rest)
  }

  /** getAllTheFilesWithTheSameName: the entries' nodes in order, null ones
      kept. A non-2xx status gives one placeholder node with id "Error
      retrieving nodes"; a null body, list or entries one with id "Nodes not
      found". */
  function GetAllTheFilesWithTheSameName(reply: QueryReply): (r: Returned<seq<Option<Node>>>)
    ensures reply.Threw? ==> r == Raised(UpstreamError(reply.message))
    ensures reply.Resp? && !Is2xxSuccessful(reply.status.code) ==> r == Value([Some(Placeholder(ErrorRetrievingNodes))])
    ensures reply.Resp? && Is2xxSuccessful(reply.status.code) && ListedEntries(reply.body).None? ==>
      r == Value([Some(Placeholder(NodesNotFound))])
    ensures reply.Resp? && Is2xxSuccessful(reply.status.code) && ListedEntries(reply.body).Some? ==>
      var entries := ListedEntries(reply.body).value;
      (r.Raised? <==> exists i :: 0 <= i < |entries| && entries[i].None?) &&
      (r.Raised? ==> r.exception == NullPointer) &&
      (r.Value? ==> |r.value| == |entries| && forall i :: 0 <= i < |entries| ==> r.value[i] == entries[i].value.entry)
  {
    match reply
    case Threw(message) => Raised(UpstreamError(message))
    case Resp(status, body) =>
      if !Is2xxSuccessful(status.code) then Value([Some(Placeholder(ErrorRetrievingNodes))])
      else if body.None? || body.value.list.None? || body.value.list.value.entries.None? then
        Value([Some(Placeholder(NodesNotFound))])
      else NodesOf(body.value.list.value.entries.value)
  }

  /** An empty entries list gives an empty node list here, whereas the node-id
      lookup answers "Node ID not found" for it. */
  lemma EmptyEntries(status: Status)
    requires Is2xxSuccessful(status.code)
    ensures GetAllTheFilesWithTheSameName(Resp(status, Some(Paging(Some(PagingList(Some([]))))))) == Value([])
    ensures GetNodeIdForSpecificFile(Resp(status, Some(Paging(Some(PagingList(Some([]))))))) == Value(NodeIdNotFound)
  {
  }
}
