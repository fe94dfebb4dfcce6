/**
 * The backend's in-memory lease table: a module-level array of lease
 * objects, read and changed in place by the GET, POST, PUT and DELETE
 * handlers of the `/api/leases` routes.
 *
 * A lease object is a map from field name to JSON value. The `:id` route
 * parameter arrives already parsed: `Some(n)` for a numeric parameter,
 * `None` for one that `parseInt` turns into NaN, which equals no id.
 */
module LeaseTable {
  import opened Wrappers

  /**
   * A JSON value as the handlers see it. Only integers are ever compared
   * (with `===` against the parsed id); every other value (boolean, null,
   * fractional number, array, object) is carried along unexamined.
   */
  datatype Value = Int(i: int) | Str(s: string) | Other(json: string)

  type Record = map<string, Value>

  /** `l.id === parseInt(req.params.id)`: a missing `id` field or a NaN parameter matches nothing. */
  predicate Matches(r: Record, id: Option<int>) {
    id.Some? && "id" in r && r["id"] == Int(id.value)
  }

  /** `findIndex`: the index of the first matching record, or -1 when none matches. */
  function FirstIndex(s: seq<Record>, id: Option<int>): (r: int)
    ensures -1 <= r < |s|
    ensures r >= 0 ==> Matches(s[r], id)
    ensures r >= 0 ==> forall j :: 0 <= j < r ==> !Matches(s[j], id)
    ensures r == -1 ==> forall j :: 0 <= j < |s| ==> !Matches(s[j], id)
    decreases |s|
  {
    if s == [] then -1
    else if Matches(s[0], id) then 0
    else
      var k := FirstIndex(s[1..], id);
      if k == -1 then -1 else k + 1
  }

  /** `{ ...current, ...body }`: every key of either, the body's value winning. */
  function Merge(current: Record, body: Record): (r: Record)
    ensures r.Keys == current.Keys + body.Keys
    ensures forall k :: k in body ==> r[k] == body[k]
    ensures forall k :: k in current && k !in body ==> r[k] == current[k]
  {
    current + body
  }

  /**
   * The record POST builds: `{ id: count + 1, ...body, status: 'Pending',
   * contractAddress: 'C' + randomPart }`, where `randomPart` stands for the
   * upper-cased random base-36 text.
   */
  function NewLease(count: nat, body: Record, randomPart: string): (r: Record)
    ensures r.Keys == body.Keys + {"id", "status", "contractAddress"}
    ensures r["status"] == Str("Pending")
    ensures r["contractAddress"].Str?
    ensures |r["contractAddress"].s| > 0 && r["contractAddress"].s[0] == 'C'
    ensures "id" !in body ==> r["id"] == Int(count + 1)
    ensures forall k :: k in body && k != "status" && k != "contractAddress" ==> r[k] == body[k]
  {
    map["id" := Int(count + 1)] + body
      + map["status" := Str("Pending"), "contractAddress" := Str("C" + randomPart)]
  }

  /** The one lease the table starts with. */
  function Seed(): Record {
    map[
      "id" := Int(1),
      "property" := Str("123 Main Street, Apt 4B"),
      "tenant" := Str("GABC...XYZ"),
      "landlord" := Str("GDEF...ABC"),
      "deposit" := Str("1000"),
      "monthlyRent" := Str("500"),
      "startDate" := Str("2024-01-01"),
      "endDate" := Str("2024-12-31"),
      "status" := Str("Active"),
      "contractAddress" := Str("CXXX...XXX")
    ]
  }

  /** The module-level `leases` array. */
  class Table {
    var leases: seq<Record>

    constructor ()
      ensures leases == [Seed()]
    {
      leases := [Seed()];
    }

    /** The linear scan of `findIndex`. */
    method FindIndex(id: Option<int>) returns (index: int)
      ensures index == FirstIndex(leases, id)
    {
      index := 0;
      while index < |leases|
        invariant 0 <= index <= |leases|
        invariant forall j :: 0 <= j < index ==> !Matches(leases[j], id)
      {
        if Matches(leases[index], id) {
          return;
        }
        index := index + 1;
      }
      index := -1;
    }

    /** GET /api/leases. */
    method GetAll() returns (all: seq<Record>)
      ensures all == leases
    {
      all := leases;
    }

    /** GET /api/leases/:id: the first match, or not found (404). */
    method GetById(id: Option<int>) returns (r: Option<Record>)
      ensures r.None? <==> forall j :: 0 <= j < |leases| ==> !Matches(leases[j], id)
      ensures r.Some? ==> FirstIndex(leases, id) >= 0 && r.value == leases[FirstIndex(leases, id)]
    {
      var index := FindIndex(id);
      if index == -1 {
        return None;
      }
      r := Some(leases[index]);
    }

    /** POST /api/leases: appends the new record and returns it. */
    method Create(body: Record, randomPart: string) returns (created: Record)
      modifies this
      ensures created == NewLease(|old(leases)|, body, randomPart)
      ensures leases == old(leases) + [created]
      ensures |leases| == |old(leases)| + 1
      ensures forall j :: 0 <= j < |old(leases)| ==> leases[j] == old(leases)[j]
    {
      created := NewLease(|leases|, body, randomPart);
      leases := leases + [created];
    }

    /** PUT /api/leases/:id: merges the body into the first match, or reports not found. */
    method Update(id: Option<int>, body: Record) returns (r: Option<Record>)
      modifies this
      ensures var i := FirstIndex(old(leases), id);
        if i == -1 then
          r.None? && leases == old(leases)
        else
          && leases == old(leases)[i := Merge(old(leases)[i], body)]
          && r == Some(leases[i])
          && |leases| == |old(leases)|
          && forall j :: 0 <= j < |leases| && j != i ==> leases[j] == old(leases)[j]
    {
      var index := FindIndex(id);
      if index == -1 {
        return None;
      }
      leases := leases[index := Merge(leases[index], body)];
      r := Some(leases[index]);
    }

    /** DELETE /api/leases/:id: removes the first match, or reports not found. */
    method Delete(id: Option<int>) returns (found: bool)
      modifies this
      ensures var i := FirstIndex(old(leases), id);
        && found == (i != -1)
        && (if i == -1 then
              leases == old(leases)
            else
              && leases == old(leases)[..i] + old(leases)[i + 1..]
              && |leases| == |old(leases)| - 1)
    {
      var index := FindIndex(id);
      if index == -1 {
        return false;
      }
      leases := leases[..index] + leases[index + 1..];
      found := true;
    }
  }

  // ---------------------------------------------------------------------------
  // Properties of lookups across changes
  // ---------------------------------------------------------------------------

  /** The first match in `a + b` is the first match in `a`, else the first in `b` shifted by `|a|`. */
  lemma {:induction false} FirstIndexConcat(a: seq<Record>, b: seq<Record>, id: Option<int>)
    ensures FirstIndex(a + b, id) ==
      if FirstIndex(a, id) >= 0 then FirstIndex(a, id)
      else if FirstIndex(b, id) >= 0 then |a| + FirstIndex(b, id)
      else -1
    decreases |a|
  {
    if a != [] {
      assert (a + b)[1..] == a[1..] + b;
      FirstIndexConcat(a[1..], b, id);
    } else {
      assert a + b == b;
    }
  }

  /**
   * A record POSTed without its own `id` is what GET by `old length + 1`
   * returns, provided no earlier record already carries that id.
   */
  lemma CreatedIsFound(s: seq<Record>, body: Record, randomPart: string)
    requires "id" !in body
    requires FirstIndex(s, Some(|s| + 1)) == -1
    ensures FirstIndex(s + [NewLease(|s|, body, randomPart)], Some(|s| + 1)) == |s|
  {
    FirstIndexConcat(s, [NewLease(|s|, body, randomPart)], Some(|s| + 1));
  }

  /** After a PUT whose body leaves `id` alone, GET by the same id returns the merged record. */
  lemma UpdatedIsFound(s: seq<Record>, id: Option<int>, body: Record)
    requires FirstIndex(s, id) >= 0
    requires "id" !in body
    ensures var i := FirstIndex(s, id);
      FirstIndex(s[i := Merge(s[i], body)], id) == i
  {
    var i := FirstIndex(s, id);
    var t := s[i := Merge(s[i], body)];
    assert Matches(t[i], id);
    assert forall j :: 0 <= j < i ==> t[j] == s[j];
  }

  /** After a DELETE, GET by the same id finds the next record with that id, if any. */
  lemma DeleteUncoversNext(s: seq<Record>, id: Option<int>)
    requires FirstIndex(s, id) >= 0
    ensures var i := FirstIndex(s, id);
      var rest := FirstIndex(s[i + 1..], id);
      FirstIndex(s[..i] + s[i + 1..], id) == if rest == -1 then -1 else i + rest
  {
    var i := FirstIndex(s, id);
    FirstIndexConcat(s[..i], s[i + 1..], id);
    assert FirstIndex(s[..i], id) == -1 by {
      assert forall j :: 0 <= j < i ==> s[..i][j] == s[j];
    }
  }

  /**
   * Ids are `length + 1`, so they can repeat: from the seed table, POST,
   * then DELETE id 1, then POST again leaves two records with id 2.
   */
  lemma IdsCanRepeat(r1: string, r2: string)
    ensures var t1 := [Seed()] + [NewLease(1, map[], r1)];
      var t2 := t1[..0] + t1[1..];
      var t3 := t2 + [NewLease(|t2|, map[], r2)];
      && FirstIndex(t1, Some(1)) == 0
      && |t3| == 2 && t3[0]["id"] == Int(2) && t3[1]["id"] == Int(2)
  {
  }
}
