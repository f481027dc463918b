/** RouterOS bridge-VLAN membership: the scripts the driver generates for a port, the commands they are made of, and
    what they do to the table of (bridge, vlan-ids, untagged, tagged) rows. */
module BridgeVlan {
  import opened Prelude

  type Port = string
  type Vlan = int

  datatype Row = Row(bridge: string, vlan: Vlan, untagged: seq<Port>, tagged: seq<Port>)

  datatype FrameTypes = AdmitAll | AdmitOnlyUntagged

  /** A bridge port: the bridge it is on, its pvid and the frames it admits. */
  datatype BridgePort = BridgePort(bridge: string, pvid: Vlan, frames: FrameTypes)

  datatype Bridge = Bridge(ports: map<Port, BridgePort>, rows: seq<Row>)

  datatype ListName = Untagged | Tagged

  /** The statements of a generated script; `$p` and `$br` are its two local variables. */
  datatype Stmt =
    | SetPort(pvid: Vlan, frames: FrameTypes)
    | StripPort
    | EnsureMember(list: ListName, vlan: Vlan)

  /** What a port is meant to be: an access port of one VLAN, or a trunk with a native and some tagged VLANs. */
  datatype Assignment = Access(vlan: Vlan) | Trunk(native: Vlan, allowed: seq<Vlan>)

  function NativeOf(a: Assignment): Vlan {
    if a.Access? then a.vlan else a.native
  }

  function TaggedOf(a: Assignment): seq<Vlan> {
    if a.Access? then [] else a.allowed
  }

  function FramesOf(a: Assignment): FrameTypes {
    if a.Access? then AdmitOnlyUntagged else AdmitAll
  }

  /** `accessVlanScript` and `trunkScript`. */
  function Script(a: Assignment): seq<Stmt> {
    var tagged := TaggedOf(a);
    [SetPort(NativeOf(a), FramesOf(a)), StripPort, EnsureMember(Untagged, NativeOf(a))]
    + seq(|tagged|, i requires 0 <= i < |tagged| => EnsureMember(Tagged, tagged[i]))
  }

  /** The VLAN part of `portConfig`: the native VLAN defaults to 1 and is never tagged as well. */
  function AssignmentFor(trunk: bool, vlan: Option<Vlan>, native: Option<Vlan>, allowed: seq<Vlan>):
    Option<Assignment>
  {
    if trunk then
      var n := if native.Some? then native.value else 1;
      Some(Trunk(n, Except(allowed, n)))
    else if vlan.Some? then Some(Access(vlan.value))
    else None
  }

  /** `allowed.filter(v => v !== native)`. */
  function Except(list: seq<Vlan>, v: Vlan): (r: seq<Vlan>)
    ensures forall x :: x in r <==> x in list && x != v
  {
    if list == [] then []
    else (if list[0] == v then [] else [list[0]]) + Except(list[1..], v)
  }

  // ---------------------------------------------------------------- what the statements do

  function Without(list: seq<Port>, p: Port): seq<Port> {
    if list == [] then []
    else
      var rest := Without(list[..|list| - 1], p);
      if list[|list| - 1] == p then rest else rest + [list[|list| - 1]]
  }

  function StripRow(r: Row, br: string, p: Port): Row {
    if r.bridge == br then r.(untagged := Without(r.untagged, p), tagged := Without(r.tagged, p)) else r
  }

  /** `STRIP_PORT`: on every row of the bridge, drop the port from both lists. */
  function Strip(rows: seq<Row>, br: string, p: Port): seq<Row> {
    seq(|rows|, i requires 0 <= i < |rows| => StripRow(rows[i], br, p))
  }

  /** `find where bridge=$br and vlan-ids=v`: the index of the row, or the length if there is none. */
  function Find(rows: seq<Row>, br: string, v: Vlan): (k: nat)
    ensures k <= |rows|
    ensures k < |rows| ==> rows[k].bridge == br && rows[k].vlan == v
    ensures forall i :: 0 <= i < k ==> !(rows[i].bridge == br && rows[i].vlan == v)
  {
    if rows == [] then 0
    else if rows[0].bridge == br && rows[0].vlan == v then 0
    else 1 + Find(rows[1..], br, v)
  }

  /** Append the port unless the list holds it: `[:find $cur $p]` is nil exactly if it does not. */
  function Append(list: seq<Port>, p: Port): seq<Port> {
    if p in list then list else list + [p]
  }

  function AddTo(r: Row, list: ListName, p: Port): Row {
    match list
    case Untagged => r.(untagged := Append(r.untagged, p))
    case Tagged => r.(tagged := Append(r.tagged, p))
  }

  /** `ensureMember`: add a row holding just the port, or append the port to the row's list if it is not in it. */
  function Ensure(rows: seq<Row>, br: string, p: Port, list: ListName, v: Vlan): seq<Row> {
    var k := Find(rows, br, v);
    if k == |rows| then rows + [AddTo(Row(br, v, [], []), list, p)]
    else rows[k := AddTo(rows[k], list, p)]
  }

  function Exec(b: Bridge, br: string, p: Port, c: Stmt): (b': Bridge)
    requires p in b.ports
    ensures p in b'.ports
  {
    match c
    case SetPort(pvid, frames) => b.(ports := b.ports[p := b.ports[p].(pvid := pvid, frames := frames)])
    case StripPort => b.(rows := Strip(b.rows, br, p))
    case EnsureMember(list, v) => b.(rows := Ensure(b.rows, br, p, list, v))
  }

  function ExecAll(b: Bridge, br: string, p: Port, script: seq<Stmt>): (b': Bridge)
    requires p in b.ports
    ensures p in b'.ports
  {
    if script == [] then b
    else Exec(ExecAll(b, br, p, script[..|script| - 1]), br, p, script[|script| - 1])
  }

  /** A whole script: it derives the bridge from the port, and fails without effect if the port is on none. */
  function Run(b: Bridge, p: Port, a: Assignment): Bridge {
    if p in b.ports then ExecAll(b, b.ports[p].bridge, p, Script(a)) else b
  }

  /** At most one row per bridge and VLAN. */
  ghost predicate OneRowPerVlan(rows: seq<Row>) {
    forall i, j :: 0 <= i < j < |rows| ==> !(rows[i].bridge == rows[j].bridge && rows[i].vlan == rows[j].vlan)
  }

  /** The VLANs of a bridge in whose untagged (tagged) list a port is. */
  function UntaggedIn(rows: seq<Row>, br: string, p: Port): set<Vlan> {
    set i | 0 <= i < |rows| && rows[i].bridge == br && p in rows[i].untagged :: rows[i].vlan
  }

  function TaggedIn(rows: seq<Row>, br: string, p: Port): set<Vlan> {
    set i | 0 <= i < |rows| && rows[i].bridge == br && p in rows[i].tagged :: rows[i].vlan
  }

  function MemberIn(rows: seq<Row>, br: string, p: Port, list: ListName): set<Vlan> {
    if list.Untagged? then UntaggedIn(rows, br, p) else TaggedIn(rows, br, p)
  }
}
