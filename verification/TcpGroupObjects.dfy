/**
 A TCP group as the object it is (server/group/tcp.go, server/group/base.go): its listeners are a list
 from which a closing listener is removed by a loop.
 */
module TcpGroupObjects {
  import opened Prelude
  import opened TcpGroup
  import Ports

  class GroupObject {
    var group: string
    var groupKey: string
    var addr: string
    var port: int
    var realPort: int
    var lns: seq<ListenerID>

    /** Listeners are listed once. */
    ghost predicate Valid()
      reads this
    {
      forall i, j | 0 <= i < j < |lns| :: lns[i] != lns[j]
    }

    ghost predicate Shows(g: Group)
      reads this
    {
      && (forall ln :: ln in lns <==> ln in g.lns)
      && (lns != [] ==> group == g.name && groupKey == g.key && addr == g.addr && port == g.port && realPort == g.realPort)
    }

    constructor ()
      ensures Valid() && forall name :: Shows(EmptyGroup(name))
    {
      group, groupKey, addr, port, realPort, lns := "", "", "", 0, 0, [];
    }

    /**
     Joining under the group's lock, once the group is known to be the registered one. `acquired` is the
     port manager's answer and `bound` whether the port could be listened on, should it come to that.
     */
    method Join(req: Request, ln: ListenerID, acquired: Result<int, Ports.PortError>, bound: bool, ghost g: Group)
      returns (r: Result<int, GroupError>)
      requires Valid() && Shows(g) && ln !in lns
      modifies this
      ensures Valid()
      ensures if g.lns != {} then
                && r == (match Refusal(g, req) case Some(error) => Err(error) case None => Ok(g.realPort))
                && Shows(if r.Ok? then g.(lns := g.lns + {ln}) else g)
              else
                && r == (if acquired.Err? then Err(PortFailed) else if !bound then Err(ListenFailed) else Ok(acquired.value))
                && Shows(if r.Ok? then Opened(g, req, r.value, ln) else g)
    {
      assert lns == [] <==> g.lns == {} by {
        if lns != [] { assert lns[0] in lns; }
      }
      if lns == [] {
        if acquired.Err? { return Err(PortFailed); }
        if !bound { return Err(ListenFailed); }
        addr, port, realPort := req.addr, req.port, acquired.value;
        group, groupKey := req.group, req.key;
      } else {
        if group != req.group || addr != req.addr { return Err(ParamsInvalid); }
        if port != req.port { return Err(DifferentPort); }
        if groupKey != req.key { return Err(AuthFailed); }
      }
      lns := lns + [ln];
      return Ok(realPort);
    }

    /** closeListener: true when the last one is gone and the clean-up is due. */
    method CloseListener(ln: ListenerID, ghost g: Group) returns (empty: bool)
      requires Valid() && Shows(g)
      modifies this`lns
      ensures Valid() && Shows(g.(lns := g.lns - {ln}))
      ensures empty <==> g.lns - {ln} == {}
    {
      for i := 0 to |lns|
        invariant lns == old(lns)
        invariant forall k | 0 <= k < i :: lns[k] != ln
      {
        if lns[i] == ln {
          lns := lns[..i] + lns[i + 1..];
          break;
        }
      }
      empty := lns == [];
      if !empty { assert lns[0] in lns; }
    }
  }
}
