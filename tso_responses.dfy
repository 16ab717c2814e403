/** Classification of one z/OSMF TSO reply (StartStopResponses) and the
    result of a TSO send (SendResponse). */
module TsoResponses {
  import opened Lang

  /** Stand-in for TsoConstants.ZOSMF_UNKNOWN_ERROR, whose text is not part of this model. */
  const ZOSMF_UNKNOWN_ERROR: string := "zosmf unknown error"

  const SERVLET_KEY_MISSING := "servletKey is missing"

  /** One entry of a reply's message-data list; its text may be absent. */
  datatype ZosmfMessages = ZosmfMessages(messageText: Optional<string>)

  /** One TSO data item, represented by the text it appends to a StringBuilder. */
  datatype TsoMessages = TsoMessages(rendered: string)

  /** The parts of a z/OSMF TSO reply that the classification reads. */
  datatype ZosmfTsoResponse = ZosmfTsoResponse(
    servletKey: Optional<string>,
    msgData: seq<ZosmfMessages>,
    tsoData: seq<TsoMessages>)

  /** The responses gathered so far for one TSO exchange. */
  datatype CollectedResponses = CollectedResponses(tsos: seq<ZosmfTsoResponse>)

  /** The TSO items' texts, concatenated in order. */
  function Joined(items: seq<TsoMessages>): string
    decreases |items|
  {
    if items == [] then "" else Joined(items[..|items| - 1]) + items[|items| - 1].rendered
  }

  /** Concatenating two runs of items concatenates their texts. */
  lemma {:induction false} JoinedAppend(a: seq<TsoMessages>, b: seq<TsoMessages>)
    ensures Joined(a + b) == Joined(a) + Joined(b)
    decreases |b|
  {
    if b != [] {
      var b' := b[..|b| - 1];
      assert (a + b)[..|a + b| - 1] == a + b';
      JoinedAppend(a, b');
    } else {
      assert a + b == a;
    }
  }

  /** Every item's text appears in the joined text, between those of the items before it
      and those of the items after it. */
  lemma {:induction false} JoinedInOrder(items: seq<TsoMessages>, k: nat)
    requires k < |items|
    ensures Joined(items) == Joined(items[..k]) + items[k].rendered + Joined(items[k + 1..])
  {
    var prefix, rest := items[..k] + [items[k]], items[k + 1..];
    assert items == prefix + rest;
    JoinedAppend(prefix, rest);
    assert prefix[..|prefix| - 1] == items[..k];
  }

  /** The StringBuilder loop of the StartStopResponses constructor. */
  method BuildMessages(items: seq<TsoMessages>) returns (s: string)
    ensures s == Joined(items)
  {
    s := "";
    var i := 0;
    while i < |items|
      invariant 0 <= i <= |items|
      invariant s == Joined(items[..i])
    {
      assert items[..i + 1][..i] == items[..i];
      s := s + items[i].rendered;
      i := i + 1;
    }
    assert items[..|items|] == items;
  }

  /** How one reply is judged: success and the failure reason (null on success). */
  datatype Classification = Classification(success: bool, failureResponse: Nullable<string>)

  /** A reply with no message data ends the TSO exchange in success; otherwise the first
      message's text, or the unknown-error constant, is the reason it has not. */
  function Classify(reply: ZosmfTsoResponse): (c: Classification)
    ensures c.success <==> reply.msgData == []
    ensures c.success <==> c.failureResponse.Null?
    ensures reply.msgData != [] && reply.msgData[0].messageText.Present? ==>
              c.failureResponse == NonNull(reply.msgData[0].messageText.value)
    ensures reply.msgData != [] && reply.msgData[0].messageText.Empty? ==>
              c.failureResponse == NonNull(ZOSMF_UNKNOWN_ERROR)
  {
    if reply.msgData != [] then
      Classification(false, NonNull(reply.msgData[0].messageText.OrElse(ZOSMF_UNKNOWN_ERROR)))
    else
      Classification(true, Null)
  }

  /** The classification only looks at the message data: the TSO data and the servlet key
      do not change it. */
  lemma ClassifyReadsOnlyMessageData(a: ZosmfTsoResponse, b: ZosmfTsoResponse)
    requires a.msgData == b.msgData
    ensures Classify(a) == Classify(b)
  {
  }

  class StartStopResponses {
    const zosmfTsoResponse: ZosmfTsoResponse
    const failureResponse: Nullable<string>
    const messages: string
    const success: bool
    var collectedResponses: seq<ZosmfTsoResponse>
    var servletKey: Nullable<string>

    /** The final fields agree with the reply they were computed from. */
    ghost predicate Valid() {
      && Classify(zosmfTsoResponse) == Classification(success, failureResponse)
      && messages == Joined(zosmfTsoResponse.tsoData)
    }

    /** The part of the constructor that runs once the servlet key is known to be present. */
    constructor (reply: ZosmfTsoResponse, key: string, collected: CollectedResponses)
      ensures Valid()
      ensures zosmfTsoResponse == reply && servletKey == NonNull(key)
      ensures collectedResponses == collected.tsos
    {
      var c := Classify(reply);
      var text := BuildMessages(reply.tsoData);
      zosmfTsoResponse := reply;
      success := c.success;
      failureResponse := c.failureResponse;
      servletKey := NonNull(key);
      messages := text;
      collectedResponses := collected.tsos;
    }

    /** The StartStopResponses constructor: a reply without a servlet key is refused,
        whatever its message data. */
    static method Create(reply: ZosmfTsoResponse, collected: CollectedResponses)
      returns (r: Result<StartStopResponses>)
      ensures r.Fail? <==> reply.servletKey.Empty?
      ensures r.Fail? ==> r.error == IllegalState(SERVLET_KEY_MISSING)
      ensures r.Ok? ==> fresh(r.value) && r.value.Valid()
      ensures r.Ok? ==> r.value.zosmfTsoResponse == reply
      ensures r.Ok? ==> r.value.servletKey == NonNull(reply.servletKey.value)
      ensures r.Ok? ==> r.value.collectedResponses == collected.tsos
    {
      match reply.servletKey
      case Empty =>
        r := Fail(IllegalState(SERVLET_KEY_MISSING));
      case Present(key) =>
        var s := new StartStopResponses(reply, key, collected);
        r := Ok(s);
    }

    /** isSuccess: the reply carried no message data. */
    function IsSuccess(): (r: bool)
      requires Valid()
      ensures r <==> zosmfTsoResponse.msgData == []
      ensures r <==> failureResponse.Null?
    {
      success
    }

    /** getFailureResponse uses Optional.of, so it throws on a successful response. */
    function GetFailureResponse(): (r: Result<Optional<string>>)
      requires Valid()
      ensures r.Fail? <==> IsSuccess()
      ensures r.Fail? ==> r.error == NullPointer
      ensures r.Ok? ==> r.value.Present? && NonNull(r.value.value) == Classify(zosmfTsoResponse).failureResponse
    {
      OptionalOf(failureResponse)
    }

    /** getMessages: always present, the reply's TSO items in order. */
    function GetMessages(): (r: Optional<string>)
      requires Valid()
      ensures r == Present(Joined(zosmfTsoResponse.tsoData))
    {
      Present(messages)
    }

    /** getServletKey: empty exactly when the stored key is null. */
    function GetServletKey(): (r: Optional<string>)
      reads this
      ensures r.Empty? <==> servletKey.Null?
      ensures servletKey.NonNull? ==> r == Present(servletKey.value)
    {
      OfNullable(servletKey)
    }

    method SetServletKey(key: Nullable<string>)
      modifies this`servletKey
      ensures servletKey == key
      ensures GetServletKey() == OfNullable(key)
      ensures collectedResponses == old(collectedResponses)
    {
      servletKey := key;
    }

    /** getCollectedResponses: the list last given to the constructor or the setter. */
    function GetCollectedResponses(): (r: seq<ZosmfTsoResponse>)
      reads this
      ensures r == collectedResponses
    {
      collectedResponses
    }

    method SetCollectedResponses(responses: seq<ZosmfTsoResponse>)
      modifies this`collectedResponses
      ensures GetCollectedResponses() == responses
      ensures servletKey == old(servletKey)
    {
      collectedResponses := responses;
    }
  }

  /** The result of a TSO send; every field is final. */
  datatype SendResponse = SendResponse(
    success: bool,
    zosmfTsoResponses: seq<ZosmfTsoResponse>,
    commandResponse: Optional<string>)
  {
    function IsSuccess(): (r: bool)
      ensures r == success
    {
      success
    }

    function GetZosmfResponses(): (r: seq<ZosmfTsoResponse>)
      ensures r == zosmfTsoResponses
    {
      zosmfTsoResponses
    }

    function GetCommandResponse(): (r: Optional<string>)
      ensures r == commandResponse
    {
      commandResponse
    }
  }

  /** The SendResponse constructor: a null response list becomes the empty list, and the
      command text is wrapped as an Optional. */
  function NewSendResponse(success: bool, responses: Nullable<seq<ZosmfTsoResponse>>, commandResponse: Nullable<string>)
    : (r: SendResponse)
    ensures r.IsSuccess() == success
    ensures responses.Null? ==> r.GetZosmfResponses() == []
    ensures responses.NonNull? ==> r.GetZosmfResponses() == responses.value
    ensures r.GetCommandResponse().Present? <==> commandResponse.NonNull?
    ensures commandResponse.NonNull? ==> r.GetCommandResponse().value == commandResponse.value
  {
    SendResponse(success, RequireNonNullElse(responses, []), OfNullable(commandResponse))
  }

  /** A caller cannot tell a null response list from an empty one. */
  lemma NullResponsesReadAsEmpty(success: bool, commandResponse: Nullable<string>)
    ensures NewSendResponse(success, Null, commandResponse) == NewSendResponse(success, NonNull([]), commandResponse)
  {
  }

  /** Apart from that, the constructor loses nothing: distinct arguments give distinct responses. */
  lemma NewSendResponseInjective(s1: bool, l1: seq<ZosmfTsoResponse>, c1: Nullable<string>,
                                 s2: bool, l2: seq<ZosmfTsoResponse>, c2: Nullable<string>)
    requires NewSendResponse(s1, NonNull(l1), c1) == NewSendResponse(s2, NonNull(l2), c2)
    ensures s1 == s2 && l1 == l2 && c1 == c2
  {
    assert OfNullable(c1) == OfNullable(c2);
  }
}
