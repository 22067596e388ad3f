/** The codecs themselves at the two ends of a connection. Whatever is called in whatever order,
    their fields go through a run of the network, so its results hold of them. */
module RpcConnection {
  import opened Wrappers
  import opened Json
  import opened JsonRpc
  import Network = RpcNetwork

  class Connection {
    const client: ClientCodec
    const server: ServerCodec
    ghost const serve: Network.Service
    var requests: seq<WireRequest>
    var responses: seq<WireResponse>
    var jobs: map<nat, Network.Call>
    ghost var acts: seq<Network.Act>
    ghost var net: Network.Net

    ghost predicate Valid()
      reads this, client, server
    {
      && net == Network.After(serve, acts)
      && client.pending == net.clientPending && server.pending == net.serverPending && server.seqNum == net.serverSeq
      && requests == net.requests && responses == net.responses && jobs == net.jobs
      && jobs.Keys == server.pending.Keys
    }

    constructor (serve: Network.Service)
      ensures Valid() && this.serve == serve && acts == [] && fresh(client) && fresh(server)
    {
      client := new ClientCodec();
      server := new ServerCodec();
      this.serve, acts, net := serve, [], Network.START;
      requests, responses, jobs := [], [], map[];
    }

    ghost method Note(a: Network.Act)
      requires net == Network.After(serve, acts)
      modifies this`acts, this`net
      ensures acts == old(acts) + [a] && net == Network.Step(serve, old(net), a) == Network.After(serve, acts)
    {
      assert (acts + [a])[..|acts|] == acts;
      acts, net := acts + [a], Network.Step(serve, net, a);
    }

    /** A call under a number not used before. */
    method Send(id: nat, name: string, param: Json)
      requires Valid() && id !in net.sent
      modifies this, client
      ensures Valid() && acts == old(acts) + [Network.Send(id, name, param)]
    {
      var m := client.WriteRequest(id, name, param);
      requests := requests + [m];
      Note(Network.Send(id, name, param));
    }

    /** The server takes the next request off the wire. */
    method ServerRead()
      requires Valid() && requests != []
      modifies this, server
      ensures Valid() && acts == old(acts) + [Network.Read]
    {
      var m := requests[0];
      var name, s := server.ReadRequestHeader(m);
      var body := server.ReadRequestBody();
      requests, jobs := requests[1..], jobs[s := Network.Call(name, body)];
      Note(Network.Read);
    }

    /** The service answers request s; a second answer is refused and changes nothing. */
    method ServerRespond(s: nat, reply: Reply)
      requires Valid() && (s in jobs ==> reply == serve(jobs[s]))
      modifies this, server
      ensures Valid() && acts == old(acts) + [Network.Respond(s)]
    {
      var m := server.WriteResponse(s, reply);
      if m.Some? {
        responses, jobs := responses + [m.value], jobs - {s};
      }
      Note(Network.Respond(s));
    }

    /** The client takes the next response off the wire. */
    method ClientReceive() returns (d: Option<Header>)
      requires Valid() && responses != []
      modifies this, client
      ensures Valid() && acts == old(acts) + [Network.Receive]
      ensures d.Some? ==> |net.delivered| == |old(net).delivered| + 1
                          && var last := net.delivered[|old(net).delivered|];
                             last.id == d.value.seqNum && last.name == d.value.name && last.error == d.value.error
    {
      var m := responses[0];
      d := client.ReadResponseHeader(m);
      responses := responses[1..];
      Note(Network.Receive);
    }

    /** What the client is told is the service's answer to what it sent. */
    lemma HeadersCorrelate(d: Header, k: nat)
      requires Valid() && |acts| < UINT64_COUNT && k < |net.delivered|
      requires net.delivered[k].id == d.seqNum && net.delivered[k].name == d.name && net.delivered[k].error == d.error
      ensures d.seqNum in net.sent && d.name == net.sent[d.seqNum].name
      ensures Network.Conveys(serve(Network.Heard(net.sent[d.seqNum])), d.error, net.delivered[k].result)
    {
      Network.SoundAlways(serve, acts);
      Network.DeliveryCorrelated(serve, net, k);
    }
  }
}
