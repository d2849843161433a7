/** NodeService: fetch one node entry, or a batch of them, and report the
    outcome in a response envelope. The nodes API is a function from a node
    id to the reply its getNode call gives. */
module NodeService {
  import opened Upstream
  import opened Model

  /** The reply to nodesApi.getNode(nodeId, ...). */
  type NodeReply = Outcome<Entry<Node>>

  function NotRetrieved(nodeId: string): string
  {
    "Error retrieving node entry for nodeId: " + nodeId
  }

  function NotFound(nodeId: string): string
  {
    "Node not found for nodeId: " + nodeId
  }

  function ExceptionFor(nodeId: string): string
  {
    "Exception retrieving node entry for nodeId: " + nodeId
  }

  /** The node inside a NodeEntry body, when body and entry are both non-null. */
  function NodeOf(body: Option<Entry<Node>>): Option<Node>
  {
    if body.Some? then body.value.entry else None
  }

  /** getNodeEntryById: the exception tier, then the status, then the
      body/entry, then the unwrapped node; every failure carries exactly one
      message naming the id, and nothing escapes. */
  function GetNodeEntryById(nodeId: string, reply: NodeReply): (r: Envelope<Node>)
    ensures r.success <==> Classify(reply, NodeOf).Delivered?
    ensures r.success ==> r.data == Some(reply.body.value.entry.value) && r.messages == []
    ensures !r.success ==> r.data == None && |r.messages| == 1
    ensures Classify(reply, NodeOf).Exceptional? ==> r.messages == [ExceptionFor(nodeId)]
    ensures Classify(reply, NodeOf).BadStatus? ==> r.messages == [NotRetrieved(nodeId)]
    ensures Classify(reply, NodeOf).Missing? ==> r.messages == [NotFound(nodeId)]
  {
    match reply
    case Threw(_) => Failed(ExceptionFor(nodeId))
    case Resp(status, body) =>
      if !Is2xxSuccessful(status.code) then Failed(NotRetrieved(nodeId))
      else if body.None? || body.value.entry.None? then Failed(NotFound(nodeId))
      else Succeeded(body.value.entry.value)
  }

  /** What one id contributes to getNodeEntriesByIds: the node it names, a
      placeholder when its call threw, or None when its reply aborts the batch. */
  function Contribution(nodeId: string, reply: NodeReply): Option<Node>
  {
    match reply
    case Threw(_) => Some(Placeholder("Exception: " + nodeId))
    case Resp(status, body) =>
      if Is2xxSuccessful(status.code) && body.Some? && body.value.entry.Some? then Some(body.value.entry.value)
      else None
  }

  /** The position of the first id whose reply aborts the batch, or |ids| if none does. */
  function FirstRejected(ids: seq<string>, fetch: string -> NodeReply): (k: nat)
    ensures k <= |ids|
    ensures forall j :: 0 <= j < k ==> Contribution(ids[j], fetch(ids[j])).Some?
    ensures k < |ids| ==> Contribution(ids[k], fetch(ids[k])).None?
  {
    if ids == [] then 0
    else if Contribution(ids[0], fetch(ids[0])).None? then 0
    else 1 + FirstRejected(ids[1..], fetch)
  }

  /** The nodes of a batch in which no id aborts, one per id and in id order. */
  function Collected(ids: seq<string>, fetch: string -> NodeReply): (nodes: seq<Node>)
    requires FirstRejected(ids, fetch) == |ids|
    ensures |nodes| == |ids|
  {
    seq(|ids|, i requires 0 <= i < |ids| => Contribution(ids[i], fetch(ids[i])).value)
  }

  /** The envelope getNodeEntriesByIds returns, as a reference definition: the
      failure that names the first rejected id, or every contribution in order. */
  function NodeEntriesByIds(ids: seq<string>, fetch: string -> NodeReply): Envelope<seq<Node>>
  {
    var k := FirstRejected(ids, fetch);
    if k < |ids| then Failed(NotRetrieved(ids[k]))
    else Succeeded(Collected(ids, fetch))
  }

  /** The ids getNodeEntriesByIds sends upstream: all of them, or up to and
      including the first rejected one. */
  function Requested(ids: seq<string>, fetch: string -> NodeReply): (sent: seq<string>)
    ensures sent <= ids
  {
    var k := FirstRejected(ids, fetch);
    if k < |ids| then ids[..k + 1] else ids
  }

  /** getNodeEntriesByIds: asks for each id in turn, stops at the first reply
      that is not 2xx or lacks body or entry, and puts a placeholder in place
      of each node whose call threw. The ghost result records the ids it asked for. */
  method GetNodeEntriesByIds(ids: seq<string>, fetch: string -> NodeReply)
    returns (r: OperationResponse<seq<Node>>, ghost requested: seq<string>)
    ensures fresh(r) && fresh(r.messages)
    ensures r.messages.modifiable == r.success
    ensures r.View() == NodeEntriesByIds(ids, fetch)
    ensures requested == Requested(ids, fetch)
  {
    var nodes: seq<Node> := [];
    requested := [];
    for i := 0 to |ids|
      invariant i <= FirstRejected(ids, fetch)
      invariant requested == ids[..i]
      invariant |nodes| == i
      invariant forall j :: 0 <= j < i ==> nodes[j] == Contribution(ids[j], fetch(ids[j])).value
    {
      var nodeId := ids[i];
      var reply := fetch(nodeId);
      requested := requested + [nodeId];
      match reply {
        case Threw(_) =>
          nodes := nodes + [Placeholder("Exception: " + nodeId)];
        case Resp(status, body) =>
          if Is2xxSuccessful(status.code) && body.Some? && body.value.entry.Some? {
            nodes := nodes + [body.value.entry.value];
          } else {
            assert requested == ids[..i + 1];
            r := BuildFailure(NotRetrieved(nodeId));
            return;
          }
      }
    }
    assert nodes == Collected(ids, fetch);
    assert requested == ids;
    r := BuildSuccess(nodes);
  }

  /** A batch succeeds exactly when no id's reply is a non-2xx status or a 2xx
      reply without body or entry; it then holds one node per id, in order: the
      unwrapped entry, or the placeholder "Exception: <id>" when the call threw. */
  lemma BatchSucceedsIffNoneRejected(ids: seq<string>, fetch: string -> NodeReply)
    ensures NodeEntriesByIds(ids, fetch).success <==>
      (forall j :: 0 <= j < |ids| ==> Contribution(ids[j], fetch(ids[j])).Some?)
    ensures NodeEntriesByIds(ids, fetch).success ==>
      NodeEntriesByIds(ids, fetch).messages == [] &&
      NodeEntriesByIds(ids, fetch).data.Some? &&
      |NodeEntriesByIds(ids, fetch).data.value| == |ids| &&
      (forall j :: 0 <= j < |ids| ==>
         NodeEntriesByIds(ids, fetch).data.value[j] ==
         if fetch(ids[j]).Threw? then Placeholder("Exception: " + ids[j]) else fetch(ids[j]).body.value.entry.value)
  {
  }

  /** A failed batch names the first rejected id, and every id before it was accepted. */
  lemma FailureNamesFirstRejected(ids: seq<string>, fetch: string -> NodeReply)
    requires !NodeEntriesByIds(ids, fetch).success
    ensures exists k :: (0 <= k < |ids| &&
      NodeEntriesByIds(ids, fetch) == Failed(NotRetrieved(ids[k])) &&
      Contribution(ids[k], fetch(ids[k])).None? &&
      Requested(ids, fetch) == ids[..k + 1] &&
      forall j :: 0 <= j < k ==> Contribution(ids[j], fetch(ids[j])).Some?)
  {
    var k := FirstRejected(ids, fetch);
    assert k < |ids|;
  }

  /** Where the first rejection lies in a batch split in two. */
  lemma {:induction false} FirstRejectedOfConcat(a: seq<string>, b: seq<string>, fetch: string -> NodeReply)
    ensures FirstRejected(a + b, fetch) ==
      if FirstRejected(a, fetch) < |a| then FirstRejected(a, fetch) else |a| + FirstRejected(b, fetch)
  {
    if a != [] {
      assert (a + b)[0] == a[0];
      assert (a + b)[1..] == a[1..] + b;
      FirstRejectedOfConcat(a[1..], b, fetch);
    } else {
      assert a + b == b;
    }
  }

  /** Asking for a batch in two parts gives the same answer as asking for it at
      once: the first part's failure, else the second part's failure, else the
      two node lists one after the other. */
  lemma SplitBatch(a: seq<string>, b: seq<string>, fetch: string -> NodeReply)
    ensures NodeEntriesByIds(a + b, fetch) ==
      if !NodeEntriesByIds(a, fetch).success then NodeEntriesByIds(a, fetch)
      else if !NodeEntriesByIds(b, fetch).success then NodeEntriesByIds(b, fetch)
      else Succeeded(NodeEntriesByIds(a, fetch).data.value + NodeEntriesByIds(b, fetch).data.value)
  {
    FirstRejectedOfConcat(a, b, fetch);
    var ka, kb := FirstRejected(a, fetch), FirstRejected(b, fetch);
    if ka < |a| {
      assert (a + b)[ka] == a[ka];
    } else if kb < |b| {
      assert (a + b)[|a| + kb] == b[kb];
    } else {
      assert Collected(a + b, fetch) == Collected(a, fetch) + Collected(b, fetch);
    }
  }

  /** A batch whose calls all throw never aborts: it yields one placeholder per id. */
  lemma {:induction false} AllThrownGivesPlaceholders(ids: seq<string>, fetch: string -> NodeReply)
    requires forall j :: 0 <= j < |ids| ==> fetch(ids[j]).Threw?
    ensures NodeEntriesByIds(ids, fetch) ==
      Succeeded(seq(|ids|, j requires 0 <= j < |ids| => Placeholder("Exception: " + ids[j])))
  {
    AllThrownAccepted(ids, fetch);
    var placeholders := seq(|ids|, j requires 0 <= j < |ids| => Placeholder("Exception: " + ids[j]));
    assert Collected(ids, fetch) == placeholders;
  }

  lemma {:induction false} AllThrownAccepted(ids: seq<string>, fetch: string -> NodeReply)
    requires forall j :: 0 <= j < |ids| ==> fetch(ids[j]).Threw?
    ensures FirstRejected(ids, fetch) == |ids|
  {
    if ids != [] {
      AllThrownAccepted(ids[1..], fetch);
    }
  }
}
