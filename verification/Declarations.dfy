/** The declaration records of one checked document, and what the server works out from them. */
module Declarations {
  import opened Outcomes
  import opened Sources

  /** One record as the prover reports it. `kind` is absent for anything that is not a proof declaration. */
  datatype Row = Row(
    path: seq<string>, kind: Option<Kind>, axiom: bool, statement: Text, header: Range, declaration: Range, finished: bool)

  /** The ranges of a record are consistent with the bytes. */
  predicate Placed(row: Row, bytes: Text) {
    && row.path != []
    && row.header.start < row.header.end <= row.declaration.end <= |bytes|
    && row.declaration.start == row.header.start
  }

  predicate AllPlaced(rows: seq<Row>, bytes: Text) {
    forall i :: 0 <= i < |rows| ==> Placed(rows[i], bytes)
  }

  predicate Unambiguous(rows: seq<Row>) {
    forall i, j :: 0 <= i < j < |rows| ==> rows[i].path != rows[j].path
  }

  predicate Intersects(a: Range, b: Range) {
    a.start < b.end && b.start < a.end
  }

  /** No other declaration record intersects the record at `i`. */
  predicate SoleOwner(rows: seq<Row>, i: nat)
    requires i < |rows|
  {
    forall j :: 0 <= j < |rows| && j != i ==> !Intersects(rows[i].declaration, rows[j].declaration)
  }

  /** The record of a name. */
  function Find(rows: seq<Row>, name: seq<string>): (r: Option<nat>)
    ensures r.Some? ==> r.value < |rows| && rows[r.value].path == name
    ensures r.None? ==> forall i :: 0 <= i < |rows| ==> rows[i].path != name
  {
    if rows == [] then None
    else match Find(rows[..|rows| - 1], name)
      case Some(i) => Some(i)
      case None => if rows[|rows| - 1].path == name then Some(|rows| - 1) else None
  }

  /** Which records may be replaced alone: every pair is compared. */
  method Replaceable(rows: seq<Row>) returns (flags: seq<bool>)
    ensures |flags| == |rows|
    ensures forall i :: 0 <= i < |rows| ==> (flags[i] <==> SoleOwner(rows, i))
  {
    flags := [];
    for i := 0 to |rows|
      invariant |flags| == i
      invariant forall k :: 0 <= k < i ==> (flags[k] <==> SoleOwner(rows, k))
    {
      var alone := true;
      for j := 0 to |rows|
        invariant alone <==> forall k :: 0 <= k < j && k != i ==> !Intersects(rows[i].declaration, rows[k].declaration)
      {
        if j != i && Intersects(rows[i].declaration, rows[j].declaration) {
          alone := false;
        }
      }
      flags := flags + [alone];
    }
  }

  /** Reject a report any of whose records is inconsistent, or two of which share a path. */
  method CheckRows(rows: seq<Row>, bytes: Text) returns (r: Result<(), ErrorKind>)
    ensures r.Ok? <==> AllPlaced(rows, bytes) && Unambiguous(rows)
    ensures r.Err? ==> r.error == if AllPlaced(rows, bytes) then Ambiguous else InvalidConfiguration
  {
    for i := 0 to |rows|
      invariant forall k :: 0 <= k < i ==> Placed(rows[k], bytes)
    {
      if !Placed(rows[i], bytes) { return Err(InvalidConfiguration); }
    }
    var seen: set<seq<string>> := {};
    for i := 0 to |rows|
      invariant seen == set k | 0 <= k < i :: rows[k].path
      invariant forall j, k :: 0 <= j < k < i ==> rows[j].path != rows[k].path
    {
      if rows[i].path in seen { return Err(Ambiguous); }
      seen := seen + {rows[i].path};
    }
    r := Ok(());
  }
}
