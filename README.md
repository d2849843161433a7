# alfresco-mcp: response envelope and response normalisation, in Dafny

The alfresco-mcp server exposes part of the Alfresco Content Services REST API
(audit, nodes, queries, discovery, probes) as agent tools. Each service method
makes one call through a generated REST client and reshapes the reply. This
project models two things:

- The result envelope `OperationResponse` and its `Builder` (module `Model`,
  `operation_response.dfy`). These are mutable objects. The message list is an
  object of its own (`MessageList`), so aliasing is visible: `build()` hands the
  builder's list to the response without copying it, and `messages(l)` keeps
  the caller's list. An `ArrayList` grows. A `List.of(...)` list is
  unmodifiable, so `add` on it throws; that is modelled as `ok == false` with
  the list unchanged.
- The normalisation rules of each service, one module per service class. The
  REST client is replaced by its reply, an `Outcome`: either `Threw(message)`
  or `Resp(status, body)`. The body is a possibly-null value of the API's
  nested shapes (`Entry`, `Paging`, `PagingList`, with null fields as
  `Option`). `getNodeEntryById` and `getDiscoveryInfo` catch exceptions and
  turn them into failure envelopes. The batch `getNodeEntriesByIds` catches
  each call's exception inside its loop and puts a placeholder node in a
  successful envelope instead. Services that catch nothing (`AuditService`,
  `QueryService`, `ProbeService`) return a `Returned` value. That is either the
  value or the exception that escapes to the caller: the upstream one, or a
  null pointer the code runs into.

`upstream.dfy` (module `Upstream`) holds the shared reply shapes and the
status classes of section 15 of RFC 9110 as Spring's `HttpStatusCode` tests
them. It also holds `Classify`, the four-tier normalisation policy (exception,
then non-2xx status, then missing payload, then payload). `getNodeEntryById`
and `getDiscoveryInfo` are specified against `Classify`. The batch follows
its own rule (`Contribution`): a non-2xx reply and a 2xx reply without body or
entry both reject the batch, and a call that threw is accepted as a placeholder.

Facts about the code that the model keeps:

- `build()` shares the builder's list with the response it builds.
- `AuditService`, `QueryService` and `ProbeService` catch nothing, so
  exceptions escape to the caller.
- `getNodeEntryById` reports an exception with a fixed text naming the node
  id, not the exception's own message.
- `getAllTheFilesWithTheSameName` degrades to a one-element list holding a
  placeholder node, not to an empty list.
- Two audit listings do not check `getList()` for null, and a null element in
  an entries list makes the stream throw. Both are modelled as `Raised(NullPointer)`.

## Model

| member | source | states |
|---|---|---|
| `Upstream.Is2xxSuccessful` | src/main/java/org/alfresco/mcp/service/NodeService.java:48 | the 2xx test holds exactly for codes 200 to 299 |
| `Upstream.Is4xxClientError` | src/main/java/org/alfresco/mcp/service/ProbeService.java:48 | the 4xx test holds exactly for codes 400 to 499 |
| `Upstream.Classify` | src/main/java/org/alfresco/mcp/service/DiscoveryService.java:51-89 | a reply falls in exactly one tier, in precedence order: exceptional iff it threw; bad status iff it answered with a non-2xx status, whatever the body; missing iff the status is 2xx and the payload cannot be unwrapped; delivered (with the unwrapped payload) otherwise |
| `Upstream.StatusBeforeBody` | src/main/java/org/alfresco/mcp/service/DiscoveryService.java:55-78 | with a non-2xx status, any two bodies give the same tier |
| `Model.OperationResponse.constructor` | src/main/java/org/alfresco/mcp/model/OperationResponse.java:23-27 | the no-argument response is unsuccessful, has null data and a fresh empty modifiable list |
| `Model.OperationResponse.WithData` | src/main/java/org/alfresco/mcp/model/OperationResponse.java:29-32 | the two-argument response keeps success and data and gets a fresh empty modifiable list |
| `Model.OperationResponse.WithMessages` | src/main/java/org/alfresco/mcp/model/OperationResponse.java:34-38 | the three-argument response holds the caller's list object itself, not a copy |
| `Model.OperationResponse.SetSuccess` | src/main/java/org/alfresco/mcp/model/OperationResponse.java:44-46 | sets the flag; data and the list reference are unchanged |
| `Model.OperationResponse.SetMessages` | src/main/java/org/alfresco/mcp/model/OperationResponse.java:52-54 | holds the given list; success and data are unchanged |
| `Model.OperationResponse.SetData` | src/main/java/org/alfresco/mcp/model/OperationResponse.java:64-66 | sets the data; success and the list reference are unchanged |
| `Model.OperationResponse.AddMessage` | src/main/java/org/alfresco/mcp/model/OperationResponse.java:56-58 | on a modifiable list the view gains exactly the message at its end, success and data unchanged; on an unmodifiable list it fails and nothing changes |
| `Model.Builder.constructor` | src/main/java/org/alfresco/mcp/model/OperationResponse.java:68-75 | a fresh builder has success false, null data and a fresh empty modifiable list |
| `Model.Builder.Success` | src/main/java/org/alfresco/mcp/model/OperationResponse.java:77-80 | sets only the flag and returns the same builder |
| `Model.Builder.Messages` | src/main/java/org/alfresco/mcp/model/OperationResponse.java:82-85 | holds the caller's list object, changes nothing else, returns the same builder |
| `Model.Builder.AddMessage` | src/main/java/org/alfresco/mcp/model/OperationResponse.java:87-90 | appends the message in place, keeping earlier messages in order, and returns the same builder; fails on an unmodifiable list |
| `Model.Builder.Data` | src/main/java/org/alfresco/mcp/model/OperationResponse.java:92-95 | sets only the data and returns the same builder |
| `Model.Builder.Build` | src/main/java/org/alfresco/mcp/model/OperationResponse.java:97-99 | a fresh response whose success and data equal the builder's, sharing the builder's list object |
| `Model.BuildFailure` | src/main/java/org/alfresco/mcp/service/NodeService.java:50-54 | the failure chain gives an unsuccessful response with null data and exactly the one message, in an unmodifiable list |
| `Model.BuildSuccess` | src/main/java/org/alfresco/mcp/service/NodeService.java:68 | the success chain gives a successful response carrying the payload and no messages |
| `Model.AddAfterBuild` | src/main/java/org/alfresco/mcp/model/OperationResponse.java:87-99 | a message added through the builder after build() appears at the end of the already built response's messages |
| `Model.AddThroughStoredList` | src/main/java/org/alfresco/mcp/model/OperationResponse.java:82-90 | after messages(l), addMessage changes the caller's own list l |
| `Model.LateMessageIsSeen` | src/main/java/org/alfresco/mcp/model/OperationResponse.java:72-99 | build() on a fresh builder, then addMessage(m): the built response reports exactly [m] |
| `NodeService.GetNodeEntryById` | src/main/java/org/alfresco/mcp/service/NodeService.java:45-77 | success iff the reply is 2xx with body and entry; success carries the unwrapped node and no message; every failure has null data and one message: the exception text, the status text, or the not-found text, each naming the id |
| `NodeService.FirstRejected` | src/main/java/org/alfresco/mcp/service/NodeService.java:84-99 | the first position whose reply aborts the batch: every earlier id is accepted, and the one at that position is rejected |
| `NodeService.Requested` | src/main/java/org/alfresco/mcp/service/NodeService.java:84-99 | the ids sent upstream are a prefix of the input |
| `NodeService.GetNodeEntriesByIds` | src/main/java/org/alfresco/mcp/service/NodeService.java:82-106 | the loop's response equals the batch reference definition, in a fresh message list that is unmodifiable on failure and growable on success; the ids it asked for are all of them, or those up to and including the first rejected one |
| `NodeService.BatchSucceedsIffNoneRejected` | src/main/java/org/alfresco/mcp/service/NodeService.java:83-105 | a batch succeeds iff no reply is non-2xx or lacks body or entry; then it has no message and one node per id in input order: the entry, or the placeholder "Exception: id" for a call that threw |
| `NodeService.FailureNamesFirstRejected` | src/main/java/org/alfresco/mcp/service/NodeService.java:88-99 | a failed batch carries the single message naming the first rejected id; all ids before it were accepted and none after it were requested |
| `NodeService.SplitBatch` | src/main/java/org/alfresco/mcp/service/NodeService.java:84-105 | a batch asked in two parts gives the first part's failure, else the second's, else the two node lists joined in order |
| `NodeService.AllThrownGivesPlaceholders` | src/main/java/org/alfresco/mcp/service/NodeService.java:100-103 | when every call throws, the batch succeeds with one placeholder per id |
| `DiscoveryService.GetDiscoveryInfo` | src/main/java/org/alfresco/mcp/service/DiscoveryService.java:46-90 | success iff the reply is 2xx with body, entry and repository; success carries entry.repository, unwrapped two levels, and no message; every failure has null data and exactly one message: the prefix with the exception message, with the status text, or the fixed null-body text |
| `DiscoveryService.StatusCheckedBeforeBody` | src/main/java/org/alfresco/mcp/service/DiscoveryService.java:55-78 | with a non-2xx status the body is never inspected: the envelope is the status failure whatever the body |
| `AuditService.Payloads` | src/main/java/org/alfresco/mcp/service/AuditService.java:69-74 | throws a null pointer iff some entry is null; otherwise the result is exactly the set of non-null payloads, no larger than the list |
| `AuditService.GetAuditApps` | src/main/java/org/alfresco/mcp/service/AuditService.java:39-66 | the upstream exception escapes; a non-2xx status, a null body, list or entries, or an empty list give the empty set; otherwise the payloads are collected |
| `AuditService.AuditEntriesOf` | src/main/java/org/alfresco/mcp/service/AuditService.java:124-141 | as for audit apps, except that a 2xx reply with a body whose list is null raises a null pointer |
| `AuditService.EntriesDifferFromAppsOnlyOnNullList` | src/main/java/org/alfresco/mcp/service/AuditService.java:135 | the audit-entry listing and the audit-app listing agree on every reply except a 2xx reply with a null list |
| `AuditService.NonEmptyMeansDelivered` | src/main/java/org/alfresco/mcp/service/AuditService.java:124-140 | a non-empty result comes only from a 2xx reply with an entries list at least as long as the result |
| `AuditService.GetXAuditEntriesWhereY` | src/main/java/org/alfresco/mcp/service/AuditService.java:105-141 | the result follows the audit-entry rules applied to the reply of the app listing asked for with this app id, limit and where clause |
| `AuditService.GetXAuditEntries` | src/main/java/org/alfresco/mcp/service/AuditService.java:93-101 | equals getXAuditEntriesWhereY with no where clause, so it follows the audit-entry rules for the app listing asked with this limit and no where clause |
| `AuditService.GetAuditEntries` | src/main/java/org/alfresco/mcp/service/AuditService.java:78-85 | equals getXAuditEntriesWhereY with limit 100 and no where clause, so it follows the audit-entry rules for that listing |
| `AuditService.GetXAuditEntriesForSpecificNode` | src/main/java/org/alfresco/mcp/service/AuditService.java:164-192 | the result follows the audit-entry rules, unguarded null list included, applied to the reply of the node listing asked for with this node id and limit |
| `AuditService.GetAuditEntriesForSpecificNode` | src/main/java/org/alfresco/mcp/service/AuditService.java:154-160 | equals getXAuditEntriesForSpecificNode with limit 100, so it follows the audit-entry rules for the node listing asked with limit 100 |
| `QueryService.GetNodeIdForSpecificFile` | src/main/java/org/alfresco/mcp/service/QueryService.java:43-74 | non-2xx gives "Error retrieving node ID"; a null body, list or entries, an empty list, a null node or a null id give "Node ID not found"; a null first entry throws; otherwise the first node's id |
| `QueryService.OnlyFirstEntryMatters` | src/main/java/org/alfresco/mcp/service/QueryService.java:69-73 | entries after the first never change the answer |
| `QueryService.NodesOf` | src/main/java/org/alfresco/mcp/service/QueryService.java:104-106 | throws a null pointer iff some entry is null; otherwise the entries' nodes, same length and order, null nodes kept |
| `QueryService.GetAllTheFilesWithTheSameName` | src/main/java/org/alfresco/mcp/service/QueryService.java:78-107 | non-2xx gives the single placeholder "Error retrieving nodes"; a null body, list or entries give the single placeholder "Nodes not found"; otherwise the entries' nodes in order with null nodes kept |
| `QueryService.EmptyEntries` | src/main/java/org/alfresco/mcp/service/QueryService.java:62-73 | an empty entries list gives an empty node list but "Node ID not found" for the id lookup |
| `ProbeService.ClassOf` | src/main/java/org/alfresco/mcp/service/ProbeService.java:46-55 | every status code is in exactly one class: 2xx, 4xx, 503, or any other code |
| `ProbeService.VerdictOf` | src/main/java/org/alfresco/mcp/service/ProbeService.java:46-64 | up iff 2xx with a body; up without details iff 2xx with a null body; client error iff 4xx; down iff 503; unexpected, quoting the status text, iff any other code |
| `ProbeService.IsAlfrescoLive` | src/main/java/org/alfresco/mcp/service/ProbeService.java:42-65 | the upstream exception escapes; otherwise the liveness sentence of the reply's verdict |
| `ProbeService.IsAlfrescoReady` | src/main/java/org/alfresco/mcp/service/ProbeService.java:68-91 | the same verdict as the liveness probe, in the readiness sentences |
| `ProbeService.StatusDecidesDown` | src/main/java/org/alfresco/mcp/service/ProbeService.java:46-55 | the body of a non-2xx probe reply never changes either probe's answer |

## Left out

- The generated REST clients (`NodesApi`, `DiscoveryApi`, `AuditApi`, `QueriesApi`, `ProbesApi`) and `ResponseEntity` are foreign code. Each service takes the reply, or a function from request to reply, as a parameter.
- Request arguments that are constants forwarded upstream (skip counts, `"-root-"`, `"cm:content"`, field and include lists) are not modelled. Their meaning lives upstream.
- The caller's `fileName` argument of the two queries is not modelled. It is only forwarded upstream, and the query functions take the reply to it. The audit app id, node id, limit and where clause are kept, as the request the reply answers.
- `HttpStatusCode.toString()` is not interpreted. It is the `text` carried with the status.
- Payload classes (`AuditApp`, `AuditEntry`, the repository information, the probe entry) are abstract type parameters compared by equality. A `Node` is its id plus a map of its other properties.
- Logging, the `@Tool` and `@ToolParam` metadata, and `AlfrescoMcpApplication` (start-up and tool registration) are left out. They have no effect on results.
- `NodeService.createNode` is left out. It is marked unfinished, never sends the body it builds and always returns null.
- `OperationResponse.toString` is left out. It is Java rendering of a list and an object.
- The getters `isSuccess`, `getMessages` and `getData` are plain field reads. They are the fields of the objects, and `View` gathers them.
- The static `builder()` is modelled as the `Builder` constructor.
- A null message list, as in `messages(null)` or `setMessages(null)`, is not modelled. A `MessageList` is never null.
- Java's 32-bit `int` for the limit is modelled as an unbounded integer. The value is only forwarded.
- A null `nodeId` string, which Java would print as "null" in the messages, is not modelled. Node ids are strings.
- NodeService.GetNodeEntriesByIds: the replies come from one function of the node id, so a repeated id gets the same reply each time. The Java code calls `getNode` once per occurrence, and those calls can answer differently (the first can throw, the second return 404); the model does not capture that.
- NodeService.GetNodeEntryById, DiscoveryService.GetDiscoveryInfo: the result is an `Envelope` value, so these do not state that the returned message list is fresh, nor that it is unmodifiable (`List.of`) on failure and a growable `ArrayList` on success. `Model.BuildFailure`, `Model.BuildSuccess` and `NodeService.GetNodeEntriesByIds` state this for the chains they run.
- NodeService.GetNodeEntriesByIds: a null `nodeIds` list is not modelled. In Java the loop sits outside the `try`, so its NullPointerException escapes to the caller; the model takes a sequence, which is never null.
