/** The hash-chained audit log: appending an entry, verifying the chain, and what a verifying chain pins down. The hash
    and the rendering of a time are parameters. */
module AuditChain {
  import opened Prelude
  import opened Text

  /** One row of `audit_log`; `detail` is the jsonb column as text, `at` is in microseconds. */
  datatype Row = Row(id: nat, username: string, action: string, target: string, detail: string, ip: string, at: nat,
                     prevHash: string, entryHash: string)

  /** sha256 as lower-case hex, and `toISOString` of a time in milliseconds. */
  datatype Codec = Codec(hash: string -> string, iso: nat -> string)

  function Fields(prevHash: string, r: Row, c: Codec): seq<string> {
    [prevHash, Decimal(r.id), r.username, r.action, r.target, r.detail, r.ip, c.iso(r.at / 1000)]
  }

  function Canonical(prevHash: string, r: Row, c: Codec): string {
    Join(Fields(prevHash, r, c), '|')
  }

  function HashOf(r: Row, c: Codec): string {
    c.hash(Canonical(r.prevHash, r, c))
  }

  /** The rows that take part in the chain; those from before it have no hash. */
  function Hashed(all: seq<Row>): (rows: seq<Row>)
    ensures |rows| <= |all|
  {
    if all == [] then [] else (if all[0].entryHash == "" then [] else [all[0]]) + Hashed(all[1..])
  }

  /** Row i links to the one before it, the first to anything. */
  predicate Links(rows: seq<Row>, i: nat)
    requires i < |rows|
  {
    i > 0 ==> rows[i].prevHash == rows[i - 1].entryHash
  }

  predicate Rehashes(r: Row, c: Codec) {
    HashOf(r, c) == r.entryHash
  }

  predicate Good(rows: seq<Row>, i: nat, c: Codec)
    requires i < |rows|
  {
    Links(rows, i) && Rehashes(rows[i], c)
  }

  predicate Chained(rows: seq<Row>, c: Codec) {
    forall i :: 0 <= i < |rows| ==> Good(rows, i, c)
  }

  datatype Reason = Intact | BrokenLink | BadHash

  datatype Verdict = Verdict(valid: bool, checked: nat, legacySkipped: nat, brokenAtId: Option<nat>, reason: Reason)

  /** What an audit call records. */
  datatype Entry = Entry(username: string, action: string, target: string, detail: string, ip: string, at: nat)

  /** How the transaction of one call ends: a failure before the insert, one after it, or a commit. */
  datatype Outcome = NotInserted | RolledBack | Committed

  function LastHash(rows: seq<Row>): string {
    if rows == [] then "" else rows[|rows| - 1].entryHash
  }

  function NewRow(rows: seq<Row>, id: nat, e: Entry, c: Codec): Row {
    var r := Row(id, e.username, e.action, e.target, e.detail, e.ip, e.at, LastHash(rows), "");
    r.(entryHash := HashOf(r, c))
  }

  class AuditLog {
    var rows: seq<Row>
    /** The id sequence; a rolled back insert uses up its number. */
    var nextId: nat
    const codec: Codec

    ghost predicate Valid()
      reads this
    {
      && (forall i, j :: 0 <= i < j < |rows| ==> rows[i].id < rows[j].id)
      && (forall i :: 0 <= i < |rows| ==> rows[i].id < nextId)
    }

    constructor (legacy: seq<Row>, nextId: nat, codec: Codec)
      requires forall i, j :: 0 <= i < j < |legacy| ==> legacy[i].id < legacy[j].id
      requires forall i :: 0 <= i < |legacy| ==> legacy[i].id < nextId
      ensures Valid() && rows == legacy && this.nextId == nextId && this.codec == codec
    {
      this.rows, this.nextId, this.codec := legacy, nextId, codec;
    }

    /** One call, a transaction under the advisory lock: read the last hash, insert, fill in the hash, commit. */
    method Audit(e: Entry, outcome: Outcome)
      requires Valid()
      modifies this
      ensures Valid()
      ensures rows == if outcome.Committed? then old(rows) + [NewRow(old(rows), old(nextId), e, codec)] else old(rows)
      ensures nextId == if outcome.NotInserted? then old(nextId) else old(nextId) + 1
      ensures outcome.Committed? ==>
                && |rows| == |old(rows)| + 1 && rows[..|old(rows)|] == old(rows)
                && var r := rows[|old(rows)|];
                   && r.id == old(nextId) && r.username == e.username && r.action == e.action && r.target == e.target
                   && r.detail == e.detail && r.ip == e.ip && r.at == e.at
                   && r.prevHash == (if old(rows) == [] then "" else old(rows)[|old(rows)| - 1].entryHash)
                   && Rehashes(r, codec)
    {
      if outcome.NotInserted? {
        return;
      }
      var snapshot := rows;
      var prevHash := if |rows| == 0 then "" else rows[|rows| - 1].entryHash;
      var row := Row(nextId, e.username, e.action, e.target, e.detail, e.ip, e.at, prevHash, "");
      nextId := nextId + 1;
      rows := rows + [row];
      var entryHash := codec.hash(Canonical(prevHash, row, codec));
      rows := rows[|rows| - 1 := row.(entryHash := entryHash)];
      if outcome.RolledBack? {
        rows := snapshot;
      }
    }
  }

  /** The verdict is "valid" exactly if every hashed row links and rehashes; otherwise it names the first one that does
      not, and whether the link or the content is at fault. */
  method VerifyAuditChain(all: seq<Row>, c: Codec) returns (v: Verdict)
    ensures v.checked == |Hashed(all)| && v.legacySkipped == |all| - |Hashed(all)|
    ensures v.valid <==> Chained(Hashed(all), c)
    ensures v.valid ==> v.brokenAtId.None? && v.reason == Intact
    ensures !v.valid ==>
              exists i :: 0 <= i < |Hashed(all)| && !Good(Hashed(all), i, c)
                && (forall j :: 0 <= j < i ==> Good(Hashed(all), j, c))
                && v.brokenAtId == Some(Hashed(all)[i].id)
                && v.reason == if Links(Hashed(all), i) then BadHash else BrokenLink
  {
    var rows := Hashed(all);
    var legacySkipped := |all| - |rows|;
    var expectedPrev, first := "", true;
    for i := 0 to |rows|
      invariant first <==> i == 0
      invariant i > 0 ==> expectedPrev == rows[i - 1].entryHash
      invariant forall j :: 0 <= j < i ==> Good(rows, j, c)
    {
      var r := rows[i];
      if !first && r.prevHash != expectedPrev {
        assert !Good(rows, i, c);
        return Verdict(false, |rows|, legacySkipped, Some(r.id), BrokenLink);
      }
      if c.hash(Canonical(r.prevHash, r, c)) != r.entryHash {
        assert !Good(rows, i, c);
        return Verdict(false, |rows|, legacySkipped, Some(r.id), BadHash);
      }
      expectedPrev, first := r.entryHash, false;
    }
    v := Verdict(true, |rows|, legacySkipped, None, Intact);
  }
}
