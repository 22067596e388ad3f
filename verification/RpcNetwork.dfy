/** A client and a server joined by two FIFO wires. The client sends requests under fresh
    numbers; the server reads them in order, answers them in any order, and the client reads the
    answers. Every step does to its side's state exactly what the codec's method does. */
module RpcNetwork {
  import opened Wrappers
  import opened Json
  import opened JsonRpc

  datatype Request = Request(name: string, param: Json)

  /** What the server hands its service: the method, and what ReadRequestBody made of the
      parameters. */
  datatype Call = Call(name: string, body: Option<Option<Json>>)

  /** What the service hears of a request. */
  function Heard(sent: Request): Call {
    Call(sent.name, FirstParam(RequestOf(0, sent.name, Wrap(sent.param)).params))
  }

  /** It hears the parameter as it was sent if and only if that is no list; of a list it hears the
      first element, or that there is none. */
  lemma HeardExactly(sent: Request)
    ensures Heard(sent) == Call(sent.name, Some(Some(sent.param))) <==> !sent.param.JArray?
    ensures sent.param.JArray? && sent.param.items != [] ==>
              Heard(sent) == Call(sent.name, Some(Some(sent.param.items[0])))
    ensures sent.param.JArray? && sent.param.items == [] ==> Heard(sent) == Call(sent.name, Some(None))
  {
    ParamRoundTrip(0, sent.name, sent.param);
  }

  /** What the client was handed for one response. */
  datatype Delivery = Delivery(id: nat, name: string, error: string, result: Option<Json>)

  /** sent remembers what was sent under each number; jobs are the requests the server has read
      and not answered, as its service is handed them. */
  datatype Net = Net(
    sent: map<nat, Request>,
    clientPending: map<nat, string>,
    requests: seq<WireRequest>,
    serverSeq: nat,
    serverPending: map<nat, Option<Json>>,
    jobs: map<nat, Call>,
    responses: seq<WireResponse>,
    delivered: seq<Delivery>)

  const START := Net(map[], map[], [], 0, map[], map[], [], [])

  datatype Act = Send(id: nat, name: string, param: Json) | Read | Respond(s: nat) | Receive

  /** What the services answer; to an unreadable body the server's own error. */
  type Service = Call -> Reply

  function DoSend(net: Net, id: nat, name: string, param: Json): Net {
    if id in net.sent then net
    else net.(sent := net.sent[id := Request(name, param)],
              clientPending := net.clientPending[id := name],
              requests := net.requests + [RequestOf(id, name, Wrap(param))])
  }

  function DoRead(net: Net): Net {
    if net.requests == [] then net
    else
      var m, s := net.requests[0], NextSeq(net.serverSeq);
      net.(requests := net.requests[1..], serverSeq := s,
           serverPending := net.serverPending[s := m.id],
           jobs := net.jobs[s := Call(m.name, FirstParam(m.params))])
  }

  function DoRespond(serve: Service, net: Net, s: nat): Net {
    if s !in net.jobs || s !in net.serverPending then net
    else net.(serverPending := net.serverPending - {s}, jobs := net.jobs - {s},
              responses := net.responses + [ResponseOf(net.serverPending[s], serve(net.jobs[s]))])
  }

  function DoReceive(net: Net): Net {
    if net.responses == [] then net
    else
      var m := net.responses[0];
      var rest := net.(responses := net.responses[1..]);
      var id := NumberOf(m.id);
      if id.None? then rest
      else
        var name := if id.value in net.clientPending then net.clientPending[id.value] else "";
        rest.(clientPending := net.clientPending - {id.value},
              delivered := net.delivered + [Delivery(id.value, name, ErrorText(m), m.result)])
  }

  function Step(serve: Service, net: Net, a: Act): Net {
    match a
    case Send(id, name, param) => DoSend(net, id, name, param)
    case Read => DoRead(net)
    case Respond(s) => DoRespond(serve, net, s)
    case Receive => DoReceive(net)
  }

  function After(serve: Service, acts: seq<Act>): Net {
    if acts == [] then START else Step(serve, After(serve, acts[..|acts| - 1]), acts[|acts| - 1])
  }

  // ---- where a number can be ----

  datatype Place = OnRequests(i: nat) | AtServer(s: nat) | OnResponses(j: nat)

  /** The request numbered id is at that place. */
  predicate At(net: Net, place: Place, id: nat) {
    match place
    case OnRequests(i) => i < |net.requests| && net.requests[i].id == Some(JInt(id))
    case AtServer(s) => s in net.serverPending && net.serverPending[s] == Some(JInt(id))
    case OnResponses(j) => j < |net.responses| && net.responses[j].id == JInt(id)
  }

  predicate Occupied(net: Net, place: Place) {
    match place
    case OnRequests(i) => i < |net.requests|
    case AtServer(s) => s in net.serverPending
    case OnResponses(j) => j < |net.responses|
  }

  /** What lies at a place is the request sent, or the service's answer to it. */
  predicate Carries(serve: Service, net: Net, place: Place, sent: Request, id: nat)
    requires Occupied(net, place)
  {
    match place
    case OnRequests(i) => net.requests[i] == RequestOf(id, sent.name, Wrap(sent.param))
    case AtServer(s) => s in net.jobs && net.jobs[s] == Heard(sent)
    case OnResponses(j) => net.responses[j] == ResponseOf(Some(JInt(id)), serve(Heard(sent)))
  }

  /** The numbers the client waits for are, each exactly once, on the request wire, held by the
      server, or on the response wire. */
  ghost predicate Conserved(net: Net) {
    && (forall id {:trigger id in net.clientPending} :: id in net.clientPending ==> exists place :: At(net, place, id))
    && (forall place, id :: At(net, place, id) ==> id in net.clientPending)
    && (forall p1, p2, id :: At(net, p1, id) && At(net, p2, id) ==> p1 == p2)
    && (forall place :: Occupied(net, place) ==> exists id: nat :: At(net, place, id))
  }

  ghost predicate Faithful(serve: Service, net: Net) {
    && (forall id :: id in net.clientPending ==> id in net.sent && net.clientPending[id] == net.sent[id].name)
    && (forall place, id :: At(net, place, id) && id in net.sent ==> Carries(serve, net, place, net.sent[id], id))
    && net.jobs.Keys == net.serverPending.Keys
    && (forall s :: s in net.serverPending ==> 1 <= s <= net.serverSeq)
  }

  /** What the client is handed of a reply: its error text and no result, a result that is not
      null, or the text that stands for a null one. */
  predicate Conveys(reply: Reply, error: string, result: Option<Json>) {
    if reply.error != "" then error == reply.error && result == None
    else if reply.result == JNull then error == "error <nil>" && result == None
    else error == "" && result == Some(reply.result)
  }

  /** A delivery hands the client the answer to exactly what was heard of the request it sent
      under that number. */
  predicate Correlated(serve: Service, net: Net, d: Delivery) {
    && d.id in net.sent && d.id !in net.clientPending
    && var reply := serve(Heard(net.sent[d.id]));
       d.name == net.sent[d.id].name && Conveys(reply, d.error, d.result)
  }

  ghost predicate Delivered(serve: Service, net: Net) {
    && (forall i :: 0 <= i < |net.delivered| ==> Correlated(serve, net, net.delivered[i]))
    && (forall i, j :: 0 <= i < j < |net.delivered| ==> net.delivered[i].id != net.delivered[j].id)
  }

  ghost predicate Sound(serve: Service, net: Net) {
    Conserved(net) && Faithful(serve, net) && Delivered(serve, net)
  }

  // ---- steps ----

  /** Requests that only move from place to place stay conserved. */
  lemma Relocated(net: Net, t: Net, back: Place -> Place, forth: Place -> Place)
    requires Conserved(net) && t.clientPending == net.clientPending
    requires forall place, id {:trigger At(t, place, id)} :: At(t, place, id) ==> At(net, back(place), id)
    requires forall place, id {:trigger At(net, place, id)} :: At(net, place, id) ==> At(t, forth(place), id)
    requires forall p1, p2 {:trigger back(p1), back(p2)} :: back(p1) == back(p2) ==> p1 == p2
    requires forall place {:trigger Occupied(t, place)} :: Occupied(t, place) ==> exists id: nat :: At(t, place, id)
    ensures Conserved(t)
  {
    forall id | id in t.clientPending ensures exists place :: At(t, place, id) {
      var place :| At(net, place, id);
      assert At(t, forth(place), id);
    }
    forall p1, p2, id | At(t, p1, id) && At(t, p2, id) ensures p1 == p2 {
      assert At(net, back(p1), id) && At(net, back(p2), id);
    }
  }

  function BackRead(place: Place, s: nat): Place {
    match place
    case OnRequests(i) => OnRequests(i + 1)
    case AtServer(x) => if x == s then OnRequests(0) else place
    case OnResponses(_) => place
  }

  function ForthRead(place: Place, s: nat): Place {
    match place
    case OnRequests(i) => if i == 0 then AtServer(s) else OnRequests(i - 1)
    case _ => place
  }

  lemma ReadMoves(net: Net, t: Net, s: nat)
    requires net.requests != [] && s !in net.serverPending && t == DoRead(net) && s == NextSeq(net.serverSeq)
    ensures forall place, id {:trigger At(t, place, id)} :: At(t, place, id) ==> At(net, BackRead(place, s), id)
    ensures forall place, id {:trigger At(net, place, id)} :: At(net, place, id) ==> At(t, ForthRead(place, s), id)
    ensures forall place {:trigger Occupied(t, place)} :: Occupied(t, place) ==> Occupied(net, BackRead(place, s))
    ensures forall place, id {:trigger At(net, BackRead(place, s), id)} ::
              At(net, BackRead(place, s), id) && Occupied(t, place) ==> At(t, place, id)
  {
  }

  lemma ReadConserved(net: Net)
    requires Conserved(net) && net.requests != [] && NextSeq(net.serverSeq) !in net.serverPending
    ensures Conserved(DoRead(net))
  {
    var t, s := DoRead(net), NextSeq(net.serverSeq);
    ReadMoves(net, t, s);
    forall place | Occupied(t, place) ensures exists id: nat :: At(t, place, id) {
      var id: nat :| At(net, BackRead(place, s), id);
      assert At(t, place, id);
    }
    Relocated(net, t, place => BackRead(place, s), place => ForthRead(place, s));
  }

  function BackRespond(place: Place, s: nat, last: nat): Place {
    if place == OnResponses(last) then AtServer(s) else if place == AtServer(s) then OnResponses(last) else place
  }

  lemma RespondMoves(serve: Service, net: Net, t: Net, s: nat)
    requires s in net.jobs && s in net.serverPending && t == DoRespond(serve, net, s)
    requires net.serverPending[s].Some?
    ensures forall place, id {:trigger At(t, place, id)} :: At(t, place, id) ==>
              At(net, BackRespond(place, s, |net.responses|), id)
    ensures forall place, id {:trigger At(net, place, id)} :: At(net, place, id) ==>
              At(t, BackRespond(place, s, |net.responses|), id)
    ensures forall place {:trigger Occupied(t, place)} :: Occupied(t, place) ==>
              Occupied(net, BackRespond(place, s, |net.responses|))
    ensures forall place, id {:trigger At(net, BackRespond(place, s, |net.responses|), id)} ::
              At(net, BackRespond(place, s, |net.responses|), id) && Occupied(t, place) ==> At(t, place, id)
  {
  }

  lemma RespondConserved(serve: Service, net: Net, s: nat)
    requires Conserved(net) && s in net.jobs && s in net.serverPending
    ensures Conserved(DoRespond(serve, net, s))
  {
    var t, last := DoRespond(serve, net, s), |net.responses|;
    assert Occupied(net, AtServer(s));
    var held: nat :| At(net, AtServer(s), held);
    RespondMoves(serve, net, t, s);
    forall place | Occupied(t, place) ensures exists id: nat :: At(t, place, id) {
      var id: nat :| At(net, BackRespond(place, s, last), id);
      assert At(t, place, id);
    }
    Relocated(net, t, place => BackRespond(place, s, last), place => BackRespond(place, s, last));
  }

  lemma SendConserved(net: Net, id: nat, name: string, param: Json)
    requires Conserved(net) && id !in net.sent && id !in net.clientPending
    ensures Conserved(DoSend(net, id, name, param))
  {
    var t, last := DoSend(net, id, name, param), OnRequests(|net.requests|);
    forall place, x ensures At(t, place, x) <==> (if place == last then x == id else At(net, place, x)) {
    }
    assert At(t, last, id);
    forall x | x in t.clientPending ensures exists place :: At(t, place, x) {
      if x != id {
        var place :| At(net, place, x);
        assert At(t, place, x);
      }
    }
    forall place | Occupied(t, place) ensures exists x: nat :: At(t, place, x) {
      if place != last {
        assert Occupied(net, place);
        var x: nat :| At(net, place, x);
        assert At(t, place, x);
      }
    }
  }

  function BackReceive(place: Place): Place {
    if place.OnResponses? then OnResponses(place.j + 1) else place
  }

  lemma ReceiveMoves(net: Net, t: Net, id: nat)
    requires At(net, OnResponses(0), id) && t == DoReceive(net)
    ensures t.clientPending == net.clientPending - {id}
    ensures forall place, x {:trigger At(t, place, x)} :: At(t, place, x) <==> At(net, BackReceive(place), x)
    ensures forall place {:trigger Occupied(t, place)} :: Occupied(t, place) ==> Occupied(net, BackReceive(place))
    ensures forall place, x {:trigger At(net, BackReceive(place), x)} ::
              At(net, BackReceive(place), x) ==> At(t, place, x)
  {
  }

  lemma ReceiveConserved(net: Net, id: nat)
    requires Conserved(net) && At(net, OnResponses(0), id)
    ensures Conserved(DoReceive(net)) && DoReceive(net).clientPending == net.clientPending - {id}
  {
    var t := DoReceive(net);
    ReceiveMoves(net, t, id);
    forall x | x in t.clientPending ensures exists place :: At(t, place, x) {
      var place :| At(net, place, x);
      assert place != OnResponses(0);
      assert At(t, if place.OnResponses? then OnResponses(place.j - 1) else place, x);
    }
    forall place, x | At(t, place, x) ensures x in t.clientPending {
      assert At(net, BackReceive(place), x);
    }
    forall p1, p2, x | At(t, p1, x) && At(t, p2, x) ensures p1 == p2 {
      assert At(net, BackReceive(p1), x) && At(net, BackReceive(p2), x);
    }
    forall place | Occupied(t, place) ensures exists x: nat :: At(t, place, x) {
      assert Occupied(net, BackReceive(place));
      var x: nat :| At(net, BackReceive(place), x);
      assert At(t, place, x);
    }
  }

  lemma SendFaithful(serve: Service, net: Net, id: nat, name: string, param: Json)
    requires Conserved(net) && Faithful(serve, net) && id !in net.sent
    ensures Faithful(serve, DoSend(net, id, name, param))
  {
    var t := DoSend(net, id, name, param);
    forall place, x | At(t, place, x) && x in t.sent ensures Carries(serve, t, place, t.sent[x], x) {
      if place != OnRequests(|net.requests|) {
        assert At(net, place, x);
        assert Carries(serve, net, place, net.sent[x], x);
      }
    }
  }

  lemma ReadFaithful(serve: Service, net: Net)
    requires Faithful(serve, net) && net.requests != [] && net.serverSeq + 1 < UINT64_COUNT
    ensures Faithful(serve, DoRead(net))
  {
    var t, s := DoRead(net), NextSeq(net.serverSeq);
    forall place, x | At(t, place, x) && x in t.sent ensures Carries(serve, t, place, t.sent[x], x) {
      assert At(net, BackRead(place, s), x);
      assert Carries(serve, net, BackRead(place, s), net.sent[x], x);
    }
  }

  lemma RespondFaithful(serve: Service, net: Net, s: nat)
    requires Faithful(serve, net) && s in net.serverPending
    ensures Faithful(serve, DoRespond(serve, net, s))
  {
    var t := DoRespond(serve, net, s);
    forall place, x: nat | At(t, place, x) && x in t.sent ensures Carries(serve, t, place, t.sent[x], x) {
      if place == OnResponses(|net.responses|) {
        assert net.serverPending[s] == Some(JInt(x)) by { IdKept(net.serverPending[s], serve(net.jobs[s]), x); }
        assert At(net, AtServer(s), x);
        assert Carries(serve, net, AtServer(s), net.sent[x], x);
      } else {
        assert At(net, place, x);
        assert Carries(serve, net, place, net.sent[x], x);
      }
    }
  }

  /** Only the id itself is renamed back. */
  lemma IdKept(id: Option<Json>, reply: Reply, x: nat)
    ensures ResponseOf(id, reply).id == JInt(x) ==> id == Some(JInt(x))
  {
  }

  lemma ReceiveFaithful(serve: Service, net: Net)
    requires Faithful(serve, net) && net.responses != []
    ensures Faithful(serve, DoReceive(net))
  {
    var t := DoReceive(net);
    forall place, x | At(t, place, x) && x in t.sent ensures Carries(serve, t, place, t.sent[x], x) {
      assert At(net, BackReceive(place), x);
      assert Carries(serve, net, BackReceive(place), net.sent[x], x);
    }
  }

  lemma HandedOver(serve: Service, net: Net, id: nat)
    requires Faithful(serve, net) && At(net, OnResponses(0), id) && id in net.clientPending
    ensures var t := DoReceive(net);
            && t.delivered[..|t.delivered| - 1] == net.delivered && t.delivered[|t.delivered| - 1].id == id
            && Correlated(serve, t, t.delivered[|t.delivered| - 1])
  {
    assert Carries(serve, net, OnResponses(0), net.sent[id], id);
  }

  lemma ReceiveDelivers(serve: Service, net: Net, id: nat)
    requires Sound(serve, net) && At(net, OnResponses(0), id)
    ensures Delivered(serve, DoReceive(net))
  {
    var t := DoReceive(net);
    assert id in net.clientPending;
    HandedOver(serve, net, id);
    forall i | 0 <= i < |net.delivered| ensures Correlated(serve, t, t.delivered[i]) {
      assert Correlated(serve, net, net.delivered[i]);
    }
    forall i, j | 0 <= i < j < |t.delivered| ensures t.delivered[i].id != t.delivered[j].id {
      assert Correlated(serve, net, net.delivered[i]);
    }
  }

  lemma SoundStep(serve: Service, net: Net, a: Act)
    requires Sound(serve, net) && net.serverSeq + 1 < UINT64_COUNT
    ensures Sound(serve, Step(serve, net, a)) && Step(serve, net, a).serverSeq <= net.serverSeq + 1
  {
    match a
    case Send(id, name, param) =>
      if id !in net.sent {
        SendConserved(net, id, name, param);
        SendFaithful(serve, net, id, name, param);
        SendDelivers(serve, net, id, name, param);
      }
    case Read =>
      if net.requests != [] {
        ReadConserved(net);
        ReadFaithful(serve, net);
        KeptDeliveries(serve, net, DoRead(net));
      }
    case Respond(s) =>
      if s in net.jobs && s in net.serverPending {
        RespondConserved(serve, net, s);
        RespondFaithful(serve, net, s);
        KeptDeliveries(serve, net, DoRespond(serve, net, s));
      }
    case Receive =>
      if net.responses != [] {
        assert Occupied(net, OnResponses(0));
        var id: nat :| At(net, OnResponses(0), id);
        ReceiveConserved(net, id);
        ReceiveFaithful(serve, net);
        ReceiveDelivers(serve, net, id);
      }
  }

  lemma KeptDeliveries(serve: Service, net: Net, t: Net)
    requires Delivered(serve, net)
    requires t.delivered == net.delivered && t.sent == net.sent && t.clientPending == net.clientPending
    ensures Delivered(serve, t)
  {
    forall i | 0 <= i < |t.delivered| ensures Correlated(serve, t, t.delivered[i]) {
      assert Correlated(serve, net, net.delivered[i]);
    }
  }

  lemma SendDelivers(serve: Service, net: Net, id: nat, name: string, param: Json)
    requires Delivered(serve, net) && id !in net.sent
    ensures Delivered(serve, DoSend(net, id, name, param))
  {
    var t := DoSend(net, id, name, param);
    forall i | 0 <= i < |t.delivered| ensures Correlated(serve, t, t.delivered[i]) {
      assert Correlated(serve, net, net.delivered[i]);
    }
  }

  /** The invariant of every run with fewer than 2^64 steps (the server's numbers are uint64). */
  lemma {:induction false} SoundAlways(serve: Service, acts: seq<Act>)
    requires |acts| < UINT64_COUNT
    ensures Sound(serve, After(serve, acts)) && After(serve, acts).serverSeq <= |acts|
  {
    if acts != [] {
      SoundAlways(serve, acts[..|acts| - 1]);
      SoundStep(serve, After(serve, acts[..|acts| - 1]), acts[|acts| - 1]);
    }
  }

  // ---- main results ----

  lemma DeliveryCorrelated(serve: Service, net: Net, k: nat)
    requires Sound(serve, net) && k < |net.delivered|
    ensures Correlated(serve, net, net.delivered[k])
  {
  }

  /** Correlation: whatever order the answers come in, what the client is handed for a number
      is the service's answer to exactly the method it sent under that number and what is heard
      of the parameter, under the name of that method; and no number is answered twice. */
  lemma RpcCorrelation(serve: Service, acts: seq<Act>)
    requires |acts| < UINT64_COUNT
    ensures var net := After(serve, acts);
            && (forall i :: 0 <= i < |net.delivered| ==> Correlated(serve, net, net.delivered[i]))
            && (forall i, j :: 0 <= i < j < |net.delivered| ==> net.delivered[i].id != net.delivered[j].id)
  {
    SoundAlways(serve, acts);
  }

  /** The messages on the wire: in every run each request is a call made under its number, with
      method and parameters as they were given. */
  lemma MessagesOnWire(serve: Service, acts: seq<Act>, i: nat)
    requires |acts| < UINT64_COUNT && i < |After(serve, acts).requests|
    ensures var net := After(serve, acts);
            exists id: nat :: id in net.sent && IsMessage(net.requests[i], id, net.sent[id].name, net.sent[id].param)
  {
    SoundAlways(serve, acts);
    MessageAt(serve, After(serve, acts), i);
  }

  lemma MessageAt(serve: Service, net: Net, i: nat)
    requires Sound(serve, net) && i < |net.requests|
    ensures exists id: nat :: id in net.sent && IsMessage(net.requests[i], id, net.sent[id].name, net.sent[id].param)
  {
    assert Occupied(net, OnRequests(i));
    var id: nat :| At(net, OnRequests(i), id);
    assert id in net.clientPending;
    assert Carries(serve, net, OnRequests(i), net.sent[id], id);
  }

  /** Conservation: at every moment the client's pending numbers are the disjoint union of the
      numbers on the request wire, those the server holds, and those on the response wire. */
  lemma RpcConservation(serve: Service, acts: seq<Act>)
    requires |acts| < UINT64_COUNT
    ensures Conserved(After(serve, acts))
  {
    SoundAlways(serve, acts);
  }

  /** A sequence number never overwrites a pending request, and a second answer to it is
      refused, whatever the service says. */
  lemma SequenceNumbersFresh(serve: Service, acts: seq<Act>, s: nat)
    requires |acts| + 1 < UINT64_COUNT
    ensures NextSeq(After(serve, acts).serverSeq) !in After(serve, acts).serverPending
    ensures var net := After(serve, acts);
            var t := DoRespond(serve, net, s);
            s !in t.serverPending && DoRespond(serve, t, s) == t
  {
    SoundAlways(serve, acts);
    AnsweredOnce(serve, After(serve, acts), s);
  }

  lemma AnsweredOnce(serve: Service, net: Net, s: nat)
    requires Faithful(serve, net) && net.serverSeq + 1 < UINT64_COUNT
    ensures NextSeq(net.serverSeq) !in net.serverPending
    ensures s !in DoRespond(serve, net, s).serverPending
    ensures DoRespond(serve, DoRespond(serve, net, s), s) == DoRespond(serve, net, s)
  {
  }

  /** Nothing is lost: once both wires are empty and the server has answered everything, the
      client waits for nothing. */
  lemma DrainedClient(serve: Service, acts: seq<Act>)
    requires |acts| < UINT64_COUNT
    requires var net := After(serve, acts); net.requests == [] && net.serverPending == map[] && net.responses == []
    ensures After(serve, acts).clientPending == map[]
  {
    SoundAlways(serve, acts);
    DrainedNet(After(serve, acts));
  }

  lemma DrainedNet(net: Net)
    requires Conserved(net) && net.requests == [] && net.serverPending == map[] && net.responses == []
    ensures net.clientPending == map[]
  {
    forall id ensures id !in net.clientPending {
      assert forall place :: !At(net, place, id);
    }
  }
}
