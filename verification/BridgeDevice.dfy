/** A RouterOS device running the generated scripts: the table is updated in place, loop by loop, and ends up as the
    functions of BridgeVlan say. */
module BridgeDevice {
  import opened Prelude
  import opened BridgeVlan
  import M = BridgeVlanMeaning

  class Device {
    var ports: map<Port, BridgePort>
    var rows: seq<Row>

    constructor (ports: map<Port, BridgePort>, rows: seq<Row>)
      ensures this.ports == ports && this.rows == rows
    {
      this.ports, this.rows := ports, rows;
    }

    function State(): Bridge
      reads this
    {
      Bridge(ports, rows)
    }

    /** `:foreach m in=$u do={ :if ($m != $p) do={ :set nu ($nu,$m) } }` */
    method DropFrom(list: seq<Port>, p: Port) returns (kept: seq<Port>)
      ensures kept == Without(list, p)
    {
      kept := [];
      for i := 0 to |list|
        invariant kept == Without(list[..i], p)
      {
        assert list[..i + 1][..i] == list[..i];
        if list[i] != p {
          kept := kept + [list[i]];
        }
      }
      assert list[..|list|] == list;
    }

    method StripPort(br: string, p: Port)
      modifies this
      ensures rows == Strip(old(rows), br, p) && ports == old(ports)
    {
      for i := 0 to |rows|
        invariant |rows| == |old(rows)| && ports == old(ports)
        invariant forall k :: 0 <= k < i ==> rows[k] == StripRow(old(rows)[k], br, p)
        invariant forall k :: i <= k < |rows| ==> rows[k] == old(rows)[k]
      {
        if rows[i].bridge == br {
          var nu := DropFrom(rows[i].untagged, p);
          var nt := DropFrom(rows[i].tagged, p);
          rows := rows[i := rows[i].(untagged := nu, tagged := nt)];
        }
      }
    }

    /** The port is in that list of that VLAN's row, once; no other port, list, VLAN or bridge is affected. */
    method EnsureMember(br: string, p: Port, list: ListName, v: Vlan)
      modifies this
      ensures rows == Ensure(old(rows), br, p, list, v) && ports == old(ports)
      ensures MemberIn(rows, br, p, list) == MemberIn(old(rows), br, p, list) + {v}
      ensures forall at, x, l :: (at, x, l) != (br, p, list) ==>
                MemberIn(rows, at, x, l) == MemberIn(old(rows), at, x, l)
      ensures forall i :: 0 <= i < |old(rows)| && !(rows[i].bridge == br && rows[i].vlan == v) ==>
                rows[i] == old(rows)[i]
    {
      M.EnsureMeaning(rows, br, p, list, v);
      var k := Find(rows, br, v);
      if k == |rows| {
        assert [] + [p] == [p];
        rows := rows + [if list.Untagged? then Row(br, v, [p], []) else Row(br, v, [], [p])];
      } else if list.Untagged? {
        if p !in rows[k].untagged {
          rows := rows[k := rows[k].(untagged := rows[k].untagged + [p])];
        }
      } else {
        if p !in rows[k].tagged {
          rows := rows[k := rows[k].(tagged := rows[k].tagged + [p])];
        }
      }
    }

    method RunScript(p: Port, a: Assignment) returns (ok: bool)
      modifies this
      ensures ok <==> p in old(ports)
      ensures State() == Run(old(State()), p, a)
    {
      if p !in ports {
        return false;
      }
      ghost var before := State();
      var br, script := ports[p].bridge, Script(a);
      for i := 0 to |script|
        invariant p in ports && State() == ExecAll(before, br, p, script[..i])
      {
        assert script[..i + 1][..i] == script[..i];
        match script[i]
        case SetPort(pvid, frames) => ports := ports[p := ports[p].(pvid := pvid, frames := frames)];
        case StripPort => StripPort(br, p);
        case EnsureMember(list, v) => EnsureMember(br, p, list, v);
      }
      assert script[..|script|] == script;
      ok := true;
    }
  }
}
