/** The two codecs of a JSON-RPC 1.0 connection. The client remembers the method of each
    request it sends; the server renames request ids, which may be any JSON value, to sequence
    numbers of its own and renames them back in its responses. */
module JsonRpc {
  import opened Wrappers
  import opened Json

  const UINT64_COUNT: nat := 0x1_0000_0000_0000_0000

  /** A request as it is on the wire; None is a field that is absent or null. */
  datatype WireRequest = WireRequest(name: string, params: Option<Json>, id: Option<Json>)

  /** An error field: absent or null, a string, or anything else, known by its printed form. */
  datatype WireError = NoError | TextError(text: string) | OtherError(printed: string)

  datatype WireResponse = WireResponse(id: Json, result: Option<Json>, error: WireError)

  /** What the client's ReadResponseHeader fills in. */
  datatype Header = Header(seqNum: nat, name: string, error: string)

  /** What a service answers: an error text, or "" and a result. */
  datatype Reply = Reply(error: string, result: Json)

  // ---- client ----

  /** A parameter list is sent as it is, anything else as a list of one. */
  function Wrap(param: Json): seq<Json> {
    if param.JArray? then param.items else [param]
  }

  function RequestOf(id: nat, name: string, params: seq<Json>): WireRequest {
    WireRequest(name, Some(JArray(params)), Some(JInt(id)))
  }

  /** The message for a call: its number, its method, and its parameters as a list, which they are
      left as if they are one. */
  predicate IsMessage(m: WireRequest, id: nat, name: string, param: Json) {
    && m.name == name && m.id == Some(JInt(id))
    && m.params == Some(if param.JArray? then param else JArray([param]))
  }

  /** The error text of a response, "" if it is a success. A response with neither error nor
      result is an error whose text is that of a nil value. */
  function ErrorText(m: WireResponse): string {
    if m.error.NoError? && m.result.Some? then ""
    else
      var x := match m.error
               case NoError => "error <nil>"
               case TextError(text) => text
               case OtherError(printed) => "error " + printed;
      if x == "" then "unspecified error" else x
  }

  /** The text a response's error is known by: "" if there is none but a result, its own text
      unless that is empty, and else what it prints as. */
  predicate IsErrorText(m: WireResponse, text: string) {
    match m.error
    case NoError => text == if m.result.Some? then "" else "error <nil>"
    case TextError(own) => text == if own == "" then "unspecified error" else own
    case OtherError(printed) => text == "error " + printed
  }

  /** The response to a request with that id: null if it had none; the error, or else the result,
      if that is not null. */
  predicate IsAnswer(m: WireResponse, id: Option<Json>, reply: Reply) {
    && m.id == (match id case None => JNull case Some(j) => j)
    && if reply.error != "" then m.error == TextError(reply.error) && m.result == None
       else m.error == NoError && m.result == if reply.result == JNull then None else Some(reply.result)
  }

  /** The request number a response's id decodes to: absent or null leaves the 0 it was reset to;
      anything else that is no number is a decoding error. */
  function NumberOf(id: Json): Option<nat> {
    match id
    case JNull => Some(0)
    case JInt(n) => if 0 <= n then Some(n) else None
    case _ => None
  }

  class ClientCodec {
    var req: WireRequest
    var resp: WireResponse
    var pending: map<nat, string>

    constructor ()
      ensures pending == map[]
    {
      req, resp, pending := WireRequest("", None, None), WireResponse(JNull, None, NoError), map[];
    }

    /** WriteRequest */
    method WriteRequest(seqNum: nat, name: string, param: Json) returns (m: WireRequest)
      modifies this
      ensures pending == old(pending)[seqNum := name] && resp == old(resp)
      ensures IsMessage(m, seqNum, name, param) && m == RequestOf(seqNum, name, Wrap(param))
    {
      pending := pending[seqNum := name];
      req := req.(name := name);
      if param.JArray? {
        req := req.(params := Some(JArray(param.items)));
      } else {
        req := req.(params := Some(JArray([param])));
      }
      req := req.(id := Some(JInt(seqNum)));
      m := req;
    }

    /** ReadResponseHeader */
    method ReadResponseHeader(m: WireResponse) returns (r: Option<Header>)
      modifies this
      ensures r.Some? <==> NumberOf(m.id).Some?
      ensures r.None? ==> pending == old(pending)
      ensures r.Some? ==>
                var id := NumberOf(m.id).value;
                && r.value.seqNum == id && r.value.error == ErrorText(m) && IsErrorText(m, r.value.error)
                && r.value.name == (if id in old(pending) then old(pending)[id] else "")
                && pending == old(pending) - {id}
    {
      resp := WireResponse(JNull, None, NoError);
      var id := NumberOf(m.id);
      if id.None? {
        return None;
      }
      resp := m;
      var name := if id.value in pending then pending[id.value] else "";
      pending := pending - {id.value};
      var error := "";
      if !resp.error.NoError? || resp.result.None? {
        if resp.error.TextError? {
          error := resp.error.text;
        } else {
          error := "error " + if resp.error.OtherError? then resp.error.printed else "<nil>";
          resp := resp.(error := TextError(error));
        }
        if error == "" {
          error := "unspecified error";
        }
      }
      return Some(Header(id.value, name, error));
    }
  }

  // ---- server ----

  /** ReadRequestBody of a request with that params field: the array's first element, if any;
      None if there is no array to read from. */
  function FirstParam(params: Option<Json>): Option<Option<Json>> {
    if params.None? || !params.value.JArray? then None
    else Some(if params.value.items == [] then None else Some(params.value.items[0]))
  }

  function ResponseOf(id: Option<Json>, reply: Reply): WireResponse {
    var wireId := if id.Some? then id.value else JNull;
    if reply.error == "" then WireResponse(wireId, if reply.result.JNull? then None else Some(reply.result), NoError)
    else WireResponse(wireId, None, TextError(reply.error))
  }

  function NextSeq(n: nat): nat {
    (n + 1) % UINT64_COUNT
  }

  class ServerCodec {
    var req: WireRequest
    var seqNum: nat
    var pending: map<nat, Option<Json>>

    constructor ()
      ensures pending == map[] && seqNum == 0
    {
      req, seqNum, pending := WireRequest("", None, None), 0, map[];
    }

    /** ReadRequestHeader: the request's id is put aside under the next sequence number. */
    method ReadRequestHeader(m: WireRequest) returns (name: string, s: nat)
      modifies this
      ensures name == m.name && s == seqNum == NextSeq(old(seqNum)) == (old(seqNum) + 1) % 0x1_0000_0000_0000_0000
      ensures pending == old(pending)[s := m.id]
      ensures req == m.(id := None)
    {
      req := m;
      name := req.name;
      seqNum := (seqNum + 1) % UINT64_COUNT;
      pending := pending[seqNum := req.id];
      req := req.(id := None);
      s := seqNum;
    }

    /** ReadRequestBody: None is the error for missing or unreadable parameters. */
    method ReadRequestBody() returns (param: Option<Option<Json>>)
      ensures param == FirstParam(req.params)
      ensures param.Some? <==> req.params.Some? && req.params.value.JArray?
      ensures param.Some? && req.params.value.items == [] ==> param.value == None
      ensures param.Some? && req.params.value.items != [] ==> param.value == Some(req.params.value.items[0])
    {
      if req.params.None? || !req.params.value.JArray? {
        return None;
      }
      var items := req.params.value.items;
      return Some(if items == [] then None else Some(items[0]));
    }

    /** WriteResponse: None is the error "invalid sequence number in response". */
    method WriteResponse(s: nat, reply: Reply) returns (m: Option<WireResponse>)
      modifies this`pending
      ensures m.None? <==> s !in old(pending)
      ensures m.None? ==> pending == old(pending)
      ensures m.Some? ==> m.value == ResponseOf(old(pending)[s], reply) && IsAnswer(m.value, old(pending)[s], reply)
      ensures m.Some? ==> pending == old(pending) - {s}
    {
      if s !in pending {
        return None;
      }
      var b := pending[s];
      pending := pending - {s};
      var id := if b.None? then JNull else b.value;
      if reply.error == "" {
        return Some(WireResponse(id, if reply.result.JNull? then None else Some(reply.result), NoError));
      }
      return Some(WireResponse(id, None, TextError(reply.error)));
    }
  }

  // ---- what the two make of each other's messages ----

  /** Two calls under one number make the same message if and only if they are the same, or differ
      only in a list around a single parameter that is no list itself. */
  lemma MessagesDiffer(id: nat, name: string, param: Json, otherName: string, other: Json)
    ensures RequestOf(id, name, Wrap(param)) == RequestOf(id, otherName, Wrap(other))
            <==> name == otherName
                 && (param == other || (!param.JArray? && other == JArray([param]))
                     || (!other.JArray? && param == JArray([other])))
  {
    if !param.JArray? && !other.JArray? && [param] == [other] {
      assert [param][0] == [other][0];
    }
  }

  /** A parameter reaches the service unchanged if and only if it is no list itself; of a list
      only the first element does. */
  lemma ParamRoundTrip(id: nat, name: string, param: Json)
    ensures FirstParam(RequestOf(id, name, Wrap(param)).params) == Some(Some(param)) <==> !param.JArray?
    ensures param.JArray? ==>
              FirstParam(RequestOf(id, name, Wrap(param)).params)
              == Some(if param.items == [] then None else Some(param.items[0]))
  {
    if param.JArray? && param.items != [] {
      assert param.items[0] < param;
    }
  }

  /** A response carries its request's id (null if it had none), and the client takes it for a
      success if and only if the service reported none and gave a result; a null result without
      an error becomes the text GetBlock waits for at the head of the chain. */
  lemma ReplyRoundTrip(id: Option<Json>, reply: Reply)
    ensures ResponseOf(id, reply).id == if id.Some? then id.value else JNull
    ensures ErrorText(ResponseOf(id, reply)) == "" <==> reply.error == "" && !reply.result.JNull?
    ensures reply.error != "" ==> ErrorText(ResponseOf(id, reply)) == reply.error
    ensures reply.error != "" ==> ResponseOf(id, reply).result == None
    ensures reply.error == "" && reply.result.JNull? ==> ErrorText(ResponseOf(id, reply)) == "error <nil>"
    ensures reply.error == "" && !reply.result.JNull? ==> ResponseOf(id, reply).result == Some(reply.result)
  {
  }
}
