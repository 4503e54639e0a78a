/** Searching for an unused Client ID or Channel ID (apps/silcd/serverid.c): the
    address and the nickname hash are fixed, only the last part varies, and the
    counter wraps around. */
module IdSearch {

  datatype ClientId = ClientId(ip: nat, rnd: nat, hash: nat)

  datatype ChannelId = ChannelId(ip: nat, port: nat, rnd: nat)

  /** The ID is in the local or the global list. */
  predicate Taken(local: set<ClientId>, global: set<ClientId>, id: ClientId) {
    id in local || id in global
  }

  /** Increment of an unsigned byte or 16-bit word. */
  function Next(rnd: nat, width: nat): nat
    requires width > 0
  {
    (rnd + 1) % width
  }

  /** silc_id_create_client_id from random start `start`: one probe there, then
      0, 1, ... until the byte wraps.  It fails exactly when all 256 IDs for this
      address and nickname are taken. */
  method CreateClientId(local: set<ClientId>, global: set<ClientId>, ip: nat, hash: nat, start: nat)
    returns (ok: bool, id: ClientId, ghost probes: nat)
    requires start < 256
    ensures ok <==> exists r: nat ::
                      r < 256 && ClientId(ip, r, hash) !in local && ClientId(ip, r, hash) !in global
    ensures ok ==> id.ip == ip && id.hash == hash && id.rnd < 256 && id !in local && id !in global
    ensures ok && id.rnd != start ==>
              && (ClientId(ip, start, hash) in local || ClientId(ip, start, hash) in global)
              && forall r: nat :: r < id.rnd ==> ClientId(ip, r, hash) in local || ClientId(ip, r, hash) in global
    ensures 1 <= probes <= 257
  {
    id, probes := ClientId(ip, start, hash), 0;
    var finding := false;
    ok := true;
    while true
      invariant ok && id.rnd < 256 && id.ip == ip && id.hash == hash
      invariant if finding then probes == id.rnd + 1 else probes == 0 && id.rnd == start
      invariant finding ==>
                  && Taken(local, global, ClientId(ip, start, hash))
                  && forall r: nat :: r < id.rnd ==> Taken(local, global, ClientId(ip, r, hash))
      decreases !finding, 256 - id.rnd
    {
      probes := probes + 1;
      assert id == ClientId(ip, id.rnd, hash);
      if id !in local {
        if id !in global {
          assert !Taken(local, global, ClientId(ip, id.rnd, hash));
          break;
        }
      }
      id := id.(rnd := Next(id.rnd, 256));
      if finding && id.rnd == 0 {
        assert forall r: nat :: r < 256 ==> Taken(local, global, ClientId(ip, r, hash));
        return false, id, probes;
      }
      if !finding {
        id := id.(rnd := 0);
        finding := true;
      }
    }
  }

  /** silc_id_create_channel_id: the search goes upwards only, in the local list
      only, and fails exactly when every suffix from its start on is taken. */
  method CreateChannelId(local: set<ChannelId>, ip: nat, port: nat, start: nat)
    returns (ok: bool, id: ChannelId, ghost probes: nat)
    requires start < 0x1_0000
    ensures ok <==> exists r: nat :: start <= r < 0x1_0000 && ChannelId(ip, port, r) !in local
    ensures ok ==> id.ip == ip && id.port == port && start <= id.rnd < 0x1_0000 && id !in local
    ensures ok ==> forall r: nat :: start <= r < id.rnd ==> ChannelId(ip, port, r) in local
    ensures 1 <= probes <= 0x1_0000 - start
  {
    id, probes := ChannelId(ip, port, start), 0;
    ok := true;
    while true
      invariant ok && id.ip == ip && id.port == port
      invariant start <= id.rnd < 0x1_0000 && probes == id.rnd - start
      invariant forall r: nat :: start <= r < id.rnd ==> ChannelId(ip, port, r) in local
      decreases 0x1_0000 - id.rnd
    {
      probes := probes + 1;
      assert id == ChannelId(ip, port, id.rnd);
      if id !in local {
        break;
      }
      id := id.(rnd := Next(id.rnd, 0x1_0000));
      if id.rnd == 0 {
        assert forall r: nat :: start <= r < 0x1_0000 ==> ChannelId(ip, port, r) in local;
        return false, id, probes;
      }
    }
  }
}
