/** VLAN membership on an Aruba switch: the Q-BRIDGE rows, the read-modify-write per VLAN, and the trunk loop over the
    configured VLANs. */
module ArubaTrunk {
  import opened Prelude
  import opened Text
  import opened VlanLists
  import opened ArubaBitmap

  type Vlan = int
  type BridgePort = p: nat | p >= 1 witness 1

  /** The egress and untagged port lists of one VLAN. */
  datatype Row = Row(egress: Bits, untagged: Bits)

  type Rows = map<Vlan, Row>

  /** What reading a row that is not there falls back to: 64 ports of zeros. */
  const NO_PORTS: Bits := [0, 0, 0, 0, 0, 0, 0, 0]

  function RowOf(rows: Rows, v: Vlan): Row {
    if v in rows then rows[v] else Row(NO_PORTS, NO_PORTS)
  }

  /** What `setVlanBitmapPort` writes, given the row it read. */
  function WithMember(r: Row, p: BridgePort, member: bool, tagged: bool): Row {
    Row(Put(r.egress, p, member), Put(r.untagged, p, member && !tagged))
  }

  /** `allowed.length === 0 || allowed.includes(id)` */
  predicate Allows(allowed: seq<Vlan>, v: Vlan) {
    allowed == [] || v in allowed
  }

  /** The trunk loop over some VLANs, in order. */
  function TrunkRows(rows: Rows, p: BridgePort, vlans: seq<Vlan>, allowed: seq<Vlan>): Rows {
    if vlans == [] then rows
    else
      var v := vlans[|vlans| - 1];
      var before := TrunkRows(rows, p, vlans[..|vlans| - 1], allowed);
      before[v := WithMember(RowOf(before, v), p, Allows(allowed, v), true)]
  }

  datatype Mode = AccessMode | TrunkMode

  datatype Options = Options(description: Option<string>, vlan: Option<Vlan>, mode: Option<Mode>,
                             trunkAllowedVlans: Option<string>)

  predicate WantsPvid(o: Options) {
    o.mode != Some(TrunkMode) && o.vlan.Some?
  }

  predicate WantsTrunk(o: Options) {
    o.mode == Some(TrunkMode) && o.trunkAllowedVlans.Some?
  }

  function Least2(a: nat, b: nat): nat {
    if a < b then a else b
  }

  class Switch {
    /** The configured VLANs in ascending order. */
    const vlans: seq<Vlan>
    /** Whether no other request writes to this switch between a read and the write that follows it. */
    const alone: bool
    var aliases: map<int, string>
    var pvids: map<BridgePort, Vlan>
    var rows: Rows

    constructor (vlans: seq<Vlan>, alone: bool, rows: Rows)
      ensures this.vlans == vlans && this.alone == alone && this.rows == rows && aliases == map[] && pvids == map[]
    {
      this.vlans, this.alone, this.rows, aliases, pvids := vlans, alone, rows, map[], map[];
    }

    /** Other requests write whatever they write. */
    method Others()
      modifies this`rows
      ensures alone ==> rows == old(rows)
    {
      var theirs: Rows := *;
      if !alone {
        rows := theirs;
      }
    }

    /** Read both port lists in one request, change one bit in a copy of each, and write both in another. The row that
        ends up is built on the one that was read, whatever the table has become by then. */
    method SetVlanBitmapPort(p: BridgePort, v: Vlan, member: bool, tagged: bool) returns (ghost table: Rows)
      modifies this`rows
      ensures rows == table[v := WithMember(RowOf(old(rows), v), p, member, tagged)]
      ensures alone ==> table == old(rows)
    {
      var row := RowOf(rows, v);
      var egress := new bv8[|row.egress|](i requires 0 <= i < |row.egress| => row.egress[i]);
      var untagged := new bv8[|row.untagged|](i requires 0 <= i < |row.untagged| => row.untagged[i]);
      assert egress[..] == row.egress && untagged[..] == row.untagged;
      var newEgress := BitmapSet(egress, p, member);
      var newUntagged := BitmapSet(untagged, p, member && !tagged);
      Others();
      table := rows;
      rows := rows[v := Row(newEgress[..], newUntagged[..])];
    }

    /** `arubaPortConfig`, on a link that lets `budget` more requests succeed and fails the next one. */
    method PortConfig(portName: string, ports: map<int, BridgePort>, o: Options, budget: nat) returns (ok: bool)
      modifies this
      ensures ParseInt(portName).None? ==>
                !ok && aliases == old(aliases) && pvids == old(pvids) && rows == old(rows)
      ensures ParseInt(portName).Some? ==>
                var ifIndex := ParseInt(portName).value;
                var mapped := ifIndex in ports;
                var trunk := o.mode == Some(TrunkMode) && o.trunkAllowedVlans.Some?;
                var pvid := o.mode != Some(TrunkMode) && o.vlan.Some?;
                var spent := if o.description.Some? then 1 else 0;
                && aliases == (if o.description.Some? && budget > 0
                               then old(aliases)[ifIndex := o.description.value] else old(aliases))
                && pvids == (if mapped && pvid && budget > spent
                             then old(pvids)[ports[ifIndex] := o.vlan.value] else old(pvids))
                && (!(mapped && trunk && budget >= spent) ==> rows == old(rows))
                && (alone && mapped && trunk && budget >= spent ==>
                      rows == TrunkRows(old(rows), ports[ifIndex], vlans[..Least2(|vlans|, budget - spent)],
                                        ArubaVlans(o.trunkAllowedVlans.value)))
                && (ok <==> budget >= spent + if mapped && pvid then 1
                                              else if mapped && trunk then |vlans| else 0)
    {
      var ifIndex := ParseInt(portName);
      if ifIndex.None? {
        return false;
      }
      ok := InterfaceConfig(ifIndex.value, ports, o, budget);
    }

    /** The description, then the VLANs if the interface is a bridge port. */
    method InterfaceConfig(ifIndex: int, ports: map<int, BridgePort>, o: Options, budget: nat) returns (ok: bool)
      modifies this
      ensures var mapped := ifIndex in ports;
              var spent := if o.description.Some? then 1 else 0;
              && aliases == (if o.description.Some? && budget > 0
                             then old(aliases)[ifIndex := o.description.value] else old(aliases))
              && pvids == (if mapped && WantsPvid(o) && budget > spent
                           then old(pvids)[ports[ifIndex] := o.vlan.value] else old(pvids))
              && (!(mapped && WantsTrunk(o) && budget >= spent) ==> rows == old(rows))
              && (alone && mapped && WantsTrunk(o) && budget >= spent ==>
                    rows == TrunkRows(old(rows), ports[ifIndex], vlans[..Least2(|vlans|, budget - spent)],
                                      ArubaVlans(o.trunkAllowedVlans.value)))
              && (ok <==> budget >= spent + if mapped && WantsPvid(o) then 1
                                            else if mapped && WantsTrunk(o) then |vlans| else 0)
    {
      var left := budget;
      if o.description.Some? {
        if left == 0 {
          return false;
        }
        left := left - 1;
        aliases := aliases[ifIndex := o.description.value];
      }
      if ifIndex in ports {
        ok := PortVlans(ports[ifIndex], o, left);
      } else {
        ok := true;
      }
    }

    /** The access VLAN, or the trunk memberships. */
    method PortVlans(p: BridgePort, o: Options, budget: nat) returns (ok: bool)
      modifies this`pvids, this`rows
      ensures pvids == if WantsPvid(o) && budget > 0 then old(pvids)[p := o.vlan.value] else old(pvids)
      ensures !WantsTrunk(o) ==> rows == old(rows)
      ensures alone && WantsTrunk(o) ==>
                rows == TrunkRows(old(rows), p, vlans[..Least2(|vlans|, budget)], ArubaVlans(o.trunkAllowedVlans.value))
      ensures ok <==> budget >= if WantsPvid(o) then 1 else if WantsTrunk(o) then |vlans| else 0
    {
      if WantsPvid(o) {
        if budget == 0 {
          return false;
        }
        pvids := pvids[p := o.vlan.value];
      }
      if WantsTrunk(o) {
        var allowed := ArubaParseVlanList(o.trunkAllowedVlans.value);
        ok := TrunkLoop(p, allowed, budget);
      } else {
        ok := true;
      }
    }

    method TrunkLoop(p: BridgePort, allowed: seq<Vlan>, budget: nat) returns (ok: bool)
      modifies this`rows
      ensures alone ==> rows == TrunkRows(old(rows), p, vlans[..Least2(|vlans|, budget)], allowed)
      ensures ok <==> |vlans| <= budget
    {
      for i := 0 to |vlans|
        invariant i <= budget && (alone ==> rows == TrunkRows(old(rows), p, vlans[..i], allowed))
      {
        if i == budget {
          return false;
        }
        assert vlans[..i + 1][..i] == vlans[..i];
        var shouldBeMember := |allowed| == 0 || vlans[i] in allowed;
        ghost var table := SetVlanBitmapPort(p, vlans[i], shouldBeMember, true);
      }
      ok := true;
    }
  }

  // ---------------------------------------------------------------- what one write does

  /** Every untagged member is an egress member. */
  ghost predicate UntaggedWithinEgress(r: Row) {
    forall q: nat :: q >= 1 && Has(r.untagged, q) ==> Has(r.egress, q)
  }

  /** A write makes the port the member it should be and gives every other port the bits it had in the row that was
      read. */
  lemma MemberWritten(r: Row, p: BridgePort, member: bool, tagged: bool, q: BridgePort)
    ensures Has(WithMember(r, p, member, tagged).egress, q) == if q == p then member else Has(r.egress, q)
    ensures Has(WithMember(r, p, member, tagged).untagged, q) ==
            if q == p then member && !tagged else Has(r.untagged, q)
  {
    PutChangesOneBit(r.egress, p, member, q);
    PutChangesOneBit(r.untagged, p, member && !tagged, q);
  }

  /** The lists of a visited VLAN keep their length, which is 64 ports where there was no row, unless the port lies past
      the end: then they grow by no more than its byte needs. */
  lemma LengthsAfter(rows: Rows, p: BridgePort, vlans: seq<Vlan>, allowed: seq<Vlan>, v: Vlan)
    requires v in vlans
    ensures var now := RowOf(TrunkRows(rows, p, vlans, allowed), v);
            && v in TrunkRows(rows, p, vlans, allowed)
            && |now.egress| == Longer(if v in rows then |rows[v].egress| else 8, (p + 7) / 8)
            && |now.untagged| == Longer(if v in rows then |rows[v].untagged| else 8, (p + 7) / 8)
  {
    TrunkRow(rows, p, vlans, allowed, v);
    TrunkKeys(rows, p, vlans, allowed);
  }

  lemma UntaggedStaysWithin(r: Row, p: BridgePort, member: bool, tagged: bool)
    requires UntaggedWithinEgress(r)
    ensures UntaggedWithinEgress(WithMember(r, p, member, tagged))
  {
    forall q: nat | q >= 1 && Has(WithMember(r, p, member, tagged).untagged, q)
      ensures Has(WithMember(r, p, member, tagged).egress, q)
    {
      MemberWritten(r, p, member, tagged, q);
    }
  }

  lemma WrittenTwice(r: Row, p: BridgePort, was: bool, member: bool)
    ensures WithMember(WithMember(r, p, was, true), p, member, true) == WithMember(r, p, member, true)
  {
    PutTwice(r.egress, p, was, member);
    PutTwice(r.untagged, p, false, false);
  }

  // ---------------------------------------------------------------- what the loop does

  /** Exactly the visited VLANs get a row. */
  lemma {:induction false} TrunkKeys(rows: Rows, p: BridgePort, vlans: seq<Vlan>, allowed: seq<Vlan>)
    ensures TrunkRows(rows, p, vlans, allowed).Keys == rows.Keys + Elements(vlans)
  {
    if vlans != [] {
      var init, last := vlans[..|vlans| - 1], vlans[|vlans| - 1];
      TrunkKeys(rows, p, init, allowed);
      assert Elements(vlans) == Elements(init) + {last};
    }
  }

  /** Each visited VLAN's row is written once, whatever the order and however often it is visited; no other row
      changes. */
  lemma {:induction false} TrunkRow(rows: Rows, p: BridgePort, vlans: seq<Vlan>, allowed: seq<Vlan>, v: Vlan)
    ensures RowOf(TrunkRows(rows, p, vlans, allowed), v) ==
            if v in vlans then WithMember(RowOf(rows, v), p, Allows(allowed, v), true) else RowOf(rows, v)
  {
    if vlans != [] {
      var init, last := vlans[..|vlans| - 1], vlans[|vlans| - 1];
      TrunkRow(rows, p, init, allowed, v);
      assert v in vlans <==> v in init || v == last;
      if v == last && v in init {
        WrittenTwice(RowOf(rows, v), p, Allows(allowed, v), Allows(allowed, v));
      }
    }
  }

  /** After the loop over the configured VLANs the port is a tagged member of exactly those the list allows, untagged
      in none of them, and every other port is where it was. Cut short, the same holds of the VLANs done by then. */
  lemma TrunkMeaning(rows: Rows, p: BridgePort, vlans: seq<Vlan>, allowed: seq<Vlan>, v: Vlan, q: BridgePort)
    ensures var now, was := RowOf(TrunkRows(rows, p, vlans, allowed), v), RowOf(rows, v);
            && Has(now.egress, q) == (if v in vlans && q == p then Allows(allowed, v) else Has(was.egress, q))
            && Has(now.untagged, q) == (if v in vlans && q == p then false else Has(was.untagged, q))
  {
    TrunkRow(rows, p, vlans, allowed, v);
    MemberWritten(RowOf(rows, v), p, Allows(allowed, v), true, q);
  }

  lemma TrunkKeepsUntaggedWithin(rows: Rows, p: BridgePort, vlans: seq<Vlan>, allowed: seq<Vlan>)
    requires forall v :: v in rows ==> UntaggedWithinEgress(rows[v])
    ensures var now := TrunkRows(rows, p, vlans, allowed);
            forall v :: v in now ==> UntaggedWithinEgress(now[v])
  {
    var now := TrunkRows(rows, p, vlans, allowed);
    forall v | v in now
      ensures UntaggedWithinEgress(now[v])
    {
      TrunkRow(rows, p, vlans, allowed, v);
      NoPorts();
      assert UntaggedWithinEgress(RowOf(rows, v));
      UntaggedStaysWithin(RowOf(rows, v), p, Allows(allowed, v), true);
    }
  }

  lemma NoPorts()
    ensures UntaggedWithinEgress(Row(NO_PORTS, NO_PORTS))
  {
  }

  /** A later trunk write for the port, over VLANs that include an earlier (perhaps interrupted) one's, ends exactly
      where it would have ended without the earlier one. */
  lemma LastTrunkWins(rows: Rows, p: BridgePort, done: seq<Vlan>, first: seq<Vlan>, vlans: seq<Vlan>,
                      allowed: seq<Vlan>)
    requires Elements(done) <= Elements(vlans)
    ensures TrunkRows(TrunkRows(rows, p, done, first), p, vlans, allowed) == TrunkRows(rows, p, vlans, allowed)
  {
    var mid := TrunkRows(rows, p, done, first);
    var both, once := TrunkRows(mid, p, vlans, allowed), TrunkRows(rows, p, vlans, allowed);
    TrunkKeys(rows, p, done, first);
    TrunkKeys(mid, p, vlans, allowed);
    TrunkKeys(rows, p, vlans, allowed);
    forall v
      ensures RowOf(both, v) == RowOf(once, v)
    {
      TrunkRow(rows, p, done, first, v);
      TrunkRow(mid, p, vlans, allowed, v);
      TrunkRow(rows, p, vlans, allowed, v);
      WrittenTwice(RowOf(rows, v), p, Allows(first, v), Allows(allowed, v));
      assert v in done ==> v in Elements(vlans);
    }
    SameRows(both, once);
  }

  lemma SameRows(a: Rows, b: Rows)
    requires a.Keys == b.Keys && forall v :: RowOf(a, v) == RowOf(b, v)
    ensures a == b
  {
    forall v | v in a
      ensures a[v] == b[v]
    {
      assert RowOf(a, v) == RowOf(b, v);
    }
  }

  /** Retrying after a failure part of the way makes up for it. */
  lemma RetryCompletes(rows: Rows, p: BridgePort, vlans: seq<Vlan>, allowed: seq<Vlan>, n: nat)
    requires n <= |vlans|
    ensures TrunkRows(TrunkRows(rows, p, vlans[..n], allowed), p, vlans, allowed) == TrunkRows(rows, p, vlans, allowed)
  {
    LastTrunkWins(rows, p, vlans[..n], allowed, vlans, allowed);
  }

  /** Trunk writes for different ports commute, byte for byte. */
  lemma TrunksCommute(rows: Rows, p: BridgePort, allowed: seq<Vlan>, q: BridgePort, other: seq<Vlan>, vlans: seq<Vlan>)
    requires p != q
    ensures TrunkRows(TrunkRows(rows, p, vlans, allowed), q, vlans, other) ==
            TrunkRows(TrunkRows(rows, q, vlans, other), p, vlans, allowed)
  {
    var pq := TrunkRows(TrunkRows(rows, p, vlans, allowed), q, vlans, other);
    var qp := TrunkRows(TrunkRows(rows, q, vlans, other), p, vlans, allowed);
    TrunkKeys(rows, p, vlans, allowed);
    TrunkKeys(rows, q, vlans, other);
    TrunkKeys(TrunkRows(rows, p, vlans, allowed), q, vlans, other);
    TrunkKeys(TrunkRows(rows, q, vlans, other), p, vlans, allowed);
    forall v
      ensures RowOf(pq, v) == RowOf(qp, v)
    {
      TrunkRow(rows, p, vlans, allowed, v);
      TrunkRow(rows, q, vlans, other, v);
      TrunkRow(TrunkRows(rows, p, vlans, allowed), q, vlans, other, v);
      TrunkRow(TrunkRows(rows, q, vlans, other), p, vlans, allowed, v);
      PutsCommute(RowOf(rows, v).egress, p, Allows(allowed, v), q, Allows(other, v));
      PutsCommute(RowOf(rows, v).untagged, p, false, q, false);
    }
    SameRows(pq, qp);
  }
}
