/** One trunk request, two drivers: what a VLAN list makes of a port on a RouterOS bridge and on an Aruba switch. */
module TrunkIntent {
  import opened Prelude
  import opened Text
  import opened VlanLists
  import R = BridgeVlan
  import M = BridgeVlanMeaning
  import B = ArubaBitmap
  import A = ArubaTrunk

  /** The configured VLANs in which an Aruba port is an egress member. */
  function EgressIn(rows: A.Rows, vlans: seq<int>, p: A.BridgePort): set<int> {
    set v | v in vlans && B.Has(A.RowOf(rows, v).egress, p)
  }

  function AfterTrunk(rows: A.Rows, p: A.BridgePort, vlans: seq<int>, spec: string): A.Rows {
    A.TrunkRows(rows, p, vlans, ArubaVlans(spec))
  }

  lemma EgressAfter(rows: A.Rows, p: A.BridgePort, vlans: seq<int>, spec: string)
    ensures EgressIn(AfterTrunk(rows, p, vlans, spec), vlans, p) ==
            set v | v in vlans && A.Allows(ArubaVlans(spec), v)
  {
    forall v | v in vlans
      ensures B.Has(A.RowOf(AfterTrunk(rows, p, vlans, spec), v).egress, p) <==> A.Allows(ArubaVlans(spec), v)
    {
      A.TrunkMeaning(rows, p, vlans, ArubaVlans(spec), v, p);
    }
  }

  lemma EmptyElements(list: seq<int>)
    ensures Elements(list) == {} <==> list == []
  {
    if list != [] {
      assert list[0] in Elements(list);
    }
  }

  predicate PlainList(spec: string) {
    forall part :: part in Split(spec, ',') ==> Plain(part)
  }

  /** A plain list that names some VLAN gives the two ports the same VLANs, as far as each device has them: the RouterOS
      port is tagged in all it names but the native one, the Aruba port is a member of all it names that exist. */
  lemma SameTrunkOnBoth(spec: string, ids: seq<int>, b: R.Bridge, port: R.Port, native: int,
                        rows: A.Rows, p: A.BridgePort, vlans: seq<int>)
    requires PlainList(spec) && RouterVlans(spec) != {}
    requires Elements(ids) == RouterVlans(spec)
    requires port in b.ports && R.OneRowPerVlan(b.rows)
    ensures var assignment := R.AssignmentFor(true, None, Some(native), ids).value;
            var after, br := R.Run(b, port, assignment), b.ports[port].bridge;
            && R.TaggedIn(after.rows, br, port) == RouterVlans(spec) - {native}
            && R.UntaggedIn(after.rows, br, port) == {native}
    ensures EgressIn(AfterTrunk(rows, p, vlans, spec), vlans, p) == RouterVlans(spec) * Elements(vlans)
  {
    RouterTrunk(ids, b, port, native);
    ArubaTrunkOf(spec, rows, p, vlans);
  }

  lemma RouterTrunk(ids: seq<int>, b: R.Bridge, port: R.Port, native: int)
    requires port in b.ports && R.OneRowPerVlan(b.rows)
    ensures var assignment := R.AssignmentFor(true, None, Some(native), ids).value;
            var after, br := R.Run(b, port, assignment), b.ports[port].bridge;
            && R.TaggedIn(after.rows, br, port) == Elements(ids) - {native}
            && R.UntaggedIn(after.rows, br, port) == {native}
  {
    var assignment := R.AssignmentFor(true, None, Some(native), ids).value;
    M.ScriptMeaning(b, port, assignment);
    assert R.TaggedOf(assignment) == R.Except(ids, native);
    assert (set v | v in R.Except(ids, native)) == Elements(ids) - {native};
  }

  lemma ArubaTrunkOf(spec: string, rows: A.Rows, p: A.BridgePort, vlans: seq<int>)
    requires PlainList(spec) && RouterVlans(spec) != {}
    ensures EgressIn(AfterTrunk(rows, p, vlans, spec), vlans, p) == RouterVlans(spec) * Elements(vlans)
  {
    ParsersAgree(spec);
    EgressAfter(rows, p, vlans, spec);
    EmptyElements(ArubaVlans(spec));
    assert forall v :: v in ArubaVlans(spec) <==> v in Elements(ArubaVlans(spec));
  }

  /** On an Aruba switch a plain list means what it says exactly if it names some VLAN or there is none to visit: an
      empty meaning, such as that of "30-20" or "10-", stands for every VLAN. */
  lemma TrunkMeansItsListIff(spec: string, rows: A.Rows, p: A.BridgePort, vlans: seq<int>)
    requires PlainList(spec)
    ensures EgressIn(AfterTrunk(rows, p, vlans, spec), vlans, p) == RouterVlans(spec) * Elements(vlans) <==>
            RouterVlans(spec) != {} || vlans == []
  {
    ParsersAgree(spec);
    EgressAfter(rows, p, vlans, spec);
    var list := ArubaVlans(spec);
    assert forall v :: v in list <==> v in Elements(list);
    EmptyElements(list);
    if list == [] && vlans != [] {
      assert vlans[0] in EgressIn(AfterTrunk(rows, p, vlans, spec), vlans, p);
    }
  }
}
