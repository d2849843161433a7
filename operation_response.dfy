/** The result envelope every envelope-returning service hands back:
    OperationResponse and its Builder. Both are mutable objects, and the
    message list is an object of its own that the builder passes to the
    response without copying it. */
module Model {
  import opened Upstream

  /** What a caller can observe of a response: isSuccess(), getData() (None for
      null) and the current contents of getMessages(). */
  datatype Envelope<T> = Envelope(success: bool, data: Option<T>, messages: seq<string>)

  /** The failure envelope the services build: not successful, no data, one message. */
  function Failed<T>(message: string): Envelope<T>
  {
    Envelope(false, None, [message])
  }

  /** The success envelope the services build: successful, the payload, no messages. */
  function Succeeded<T>(payload: T): Envelope<T>
  {
    Envelope(true, Some(payload), [])
  }

  /** A java.util.List<String> as the envelope holds it. An ArrayList grows on
      add; a List.of(...) is unmodifiable and its add throws
      UnsupportedOperationException. */
  class MessageList {
    var items: seq<string>
    const modifiable: bool

    /** new ArrayList<>() */
    constructor Empty()
      ensures items == [] && modifiable
    {
      items := [];
      modifiable := true;
    }

    /** List.of(items...) */
    constructor Of(items: seq<string>)
      ensures this.items == items && !modifiable
    {
      this.items := items;
      modifiable := false;
    }

    /** List.add: appends in place, or throws (ok == false) and changes nothing. */
    method Add(message: string) returns (ok: bool)
      modifies this
      ensures ok == modifiable
      ensures items == if ok then old(items) + [message] else old(items)
    {
      ok := modifiable;
      if ok {
        items := items + [message];
      }
    }
  }

  class OperationResponse<T> {
    var success: bool
    var messages: MessageList
    var data: Option<T>

    /** The caller's view of this response. */
    function View(): Envelope<T>
      reads this, messages
    {
      Envelope(success, data, messages.items)
    }

    /** new OperationResponse(): not successful, no data, a fresh empty ArrayList. */
    constructor ()
      ensures !success && data == None
      ensures fresh(messages) && messages.items == [] && messages.modifiable
    {
      success := false;
      data := None;
      messages := new MessageList.Empty();
    }

    /** new OperationResponse(success, data): the messages are a fresh empty ArrayList. */
    constructor WithData(success: bool, data: Option<T>)
      ensures this.success == success && this.data == data
      ensures fresh(messages) && messages.items == [] && messages.modifiable
    {
      this.success := success;
      this.data := data;
      messages := new MessageList.Empty();
    }

    /** new OperationResponse(success, data, messages): keeps the caller's list itself. */
    constructor WithMessages(success: bool, data: Option<T>, messages: MessageList)
      ensures this.success == success && this.data == data && this.messages == messages
      ensures messages.items == old(messages.items)
    {
      this.success := success;
      this.data := data;
      this.messages := messages;
    }

    /** setSuccess: only the success flag changes. */
    method SetSuccess(success: bool)
      modifies this
      ensures this.success == success
      ensures data == old(data) && messages == old(messages)
    {
      this.success := success;
    }

    /** setMessages: the response now holds the caller's list; nothing else changes. */
    method SetMessages(messages: MessageList)
      modifies this
      ensures this.messages == messages
      ensures success == old(success) && data == old(data)
    {
      this.messages := messages;
    }

    /** setData: only the data changes. */
    method SetData(data: Option<T>)
      modifies this
      ensures this.data == data
      ensures success == old(success) && messages == old(messages)
    {
      this.data := data;
    }

    /** addMessage: appends to the held list in place (or throws, on an
        unmodifiable list, leaving it as it was); success and data stay. */
    method AddMessage(message: string) returns (ok: bool)
      modifies messages
      ensures ok == messages.modifiable
      ensures View() == old(View()).(messages := if ok then old(messages.items) + [message] else old(messages.items))
    {
      ok := messages.Add(message);
    }
  }

  class Builder<T> {
    var success: bool
    var messages: MessageList
    var data: Option<T>

    /** OperationResponse.builder(): not successful, no data, a fresh empty ArrayList. */
    constructor ()
      ensures !success && data == None
      ensures fresh(messages) && messages.items == [] && messages.modifiable
    {
      success := false;
      data := None;
      messages := new MessageList.Empty();
    }

    /** success(b): sets only the flag and returns the same builder. */
    method Success(success: bool) returns (self: Builder<T>)
      modifies this
      ensures self == this
      ensures this.success == success && data == old(data) && messages == old(messages)
    {
      this.success := success;
      self := this;
    }

    /** messages(l): holds the caller's list itself and returns the same builder. */
    method Messages(messages: MessageList) returns (self: Builder<T>)
      modifies this
      ensures self == this
      ensures this.messages == messages && success == old(success) && data == old(data)
    {
      this.messages := messages;
      self := this;
    }

    /** addMessage(m): appends to the held list in place and returns the same
        builder; on an unmodifiable list it throws (ok == false) instead. */
    method AddMessage(message: string) returns (self: Builder<T>, ok: bool)
      modifies messages
      ensures self == this && ok == messages.modifiable
      ensures messages.items == if ok then old(messages.items) + [message] else old(messages.items)
    {
      ok := messages.Add(message);
      self := this;
    }

    /** data(d): sets only the data and returns the same builder. */
    method Data(data: Option<T>) returns (self: Builder<T>)
      modifies this
      ensures self == this
      ensures this.data == data && success == old(success) && messages == old(messages)
    {
      this.data := data;
      self := this;
    }

    /** build(): a new response with the builder's current fields, sharing
        (not copying) the builder's message list. */
    method Build() returns (r: OperationResponse<T>)
      ensures fresh(r)
      ensures r.success == success && r.data == data && r.messages == messages
      ensures r.View() == Envelope(success, data, messages.items)
    {
      r := new OperationResponse.WithMessages(success, data, messages);
    }
  }

  /** The chain every failure path of the services runs:
      builder().success(false).data(null).messages(List.of(message)).build(). */
  method BuildFailure<T>(message: string) returns (r: OperationResponse<T>)
    ensures fresh(r) && fresh(r.messages)
    ensures r.View() == Failed(message) && !r.messages.modifiable
  {
    var b := new Builder<T>();
    b := b.Success(false);
    b := b.Data(None);
    var l := new MessageList.Of([message]);
    b := b.Messages(l);
    r := b.Build();
  }

  /** The chain every success path of the services runs:
      builder().success(true).data(payload).build(). */
  method BuildSuccess<T>(payload: T) returns (r: OperationResponse<T>)
    ensures fresh(r) && fresh(r.messages)
    ensures r.View() == Succeeded(payload) && r.messages.modifiable
  {
    var b := new Builder<T>();
    b := b.Success(true);
    b := b.Data(Some(payload));
    r := b.Build();
  }

  /** build() does not copy the list: a message added through the builder
      after build() shows up in the response already built, which is
      otherwise as built. */
  method AddAfterBuild<T>(b: Builder<T>, message: string) returns (r: OperationResponse<T>, ok: bool)
    modifies b.messages
    ensures fresh(r) && r.messages == b.messages
    ensures ok == b.messages.modifiable
    ensures r.View() == Envelope(b.success, b.data, if ok then old(b.messages.items) + [message] else old(b.messages.items))
  {
    r := b.Build();
    var self;
    self, ok := b.AddMessage(message);
  }

  /** messages(l) keeps the caller's list: after messages(l).addMessage(m) the
      caller's own list l holds m at its end. */
  method AddThroughStoredList<T>(b: Builder<T>, l: MessageList, message: string) returns (ok: bool)
    modifies b, l
    ensures b.messages == l && ok == l.modifiable
    ensures l.items == if ok then old(l.items) + [message] else old(l.items)
    ensures b.success == old(b.success) && b.data == old(b.data)
  {
    var self := b.Messages(l);
    self, ok := self.AddMessage(message);
  }

  /** A fresh builder, built, then given a message: the response built before
      the message was added now reports it. */
  method LateMessageIsSeen<T>(message: string) returns (r: OperationResponse<T>)
    ensures fresh(r)
    ensures r.View() == Envelope(false, None, [message])
  {
    var b := new Builder<T>();
    r := b.Build();
    var self, ok := b.AddMessage(message);
  }
}
