/**
 * A coordinate along one axis of the page, and the rule by which a
 * configuration value becomes one (src/geometry_def/coord.rs).
 *
 * A bare floating-point number is measured from the page origin; a map
 * whose "off far edge" entry holds a number is measured inward from the far
 * edge. The configuration value is abstracted to floating-point numbers,
 * integers, maps and everything else.
 */
module GeometryCoord {
  import opened Results

  datatype Coord = OffZero(v: real) | OffFarEdge(v: real)

  /** A decoded configuration value, as the decoder hands it to the visitor. */
  datatype Value =
    | Number(n: real)
    | Integer(i: int)
    | Mapping(entries: seq<(string, Value)>)
    | Other

  /** The decoder's errors, as serde reports them for this visitor. */
  datatype DecodeError =
    | InvalidType          // neither a float nor a map, or the entry is not a number
    | MissingField         // the map has no "off far edge" entry
    | DuplicateField       // the map has two "off far edge" entries

  const FarEdgeKey: string := "off far edge"

  /**
   * The record field's own reading of a value as a float: unlike the
   * coordinate visitor, it takes an integer too.
   */
  function FieldValue(v: Value): (r: Option<real>)
    ensures r.Some? <==> v.Number? || v.Integer?
    ensures v.Number? ==> r == Some(v.n)
    ensures v.Integer? ==> r == Some(v.i as real)
  {
    match v
    case Number(n) => Some(n)
    case Integer(i) => Some(i as real)
    case _ => None
  }

  /**
   * The map visitor: walk the entries in order, as the derived deserializer
   * of the one-field record does. A second "off far edge" key is rejected
   * before its value is looked at, the value of the first must be a float
   * or an integer, and any other key is skipped whatever its value.
   */
  function VisitEntries(entries: seq<(string, Value)>, seen: Option<real>): (r: Result<real, DecodeError>)
    ensures seen.Some? ==> r != Err(MissingField)
    ensures r.Ok? && seen.Some? ==> r.value == seen.value
    decreases |entries|
  {
    if entries == [] then
      if seen.Some? then Ok(seen.value) else Err(MissingField)
    else if entries[0].0 == FarEdgeKey then
      if seen.Some? then Err(DuplicateField)
      else
        match FieldValue(entries[0].1)
        case Some(x) => VisitEntries(entries[1..], Some(x))
        case None => Err(InvalidType)
    else
      VisitEntries(entries[1..], seen)
  }

  /**
   * The coordinate visitor: a float is OffZero, a map is decoded as the
   * far-edge record. The visitor has no method for integers, so a bare
   * integer is rejected.
   */
  function Decode(v: Value): (r: Result<Coord, DecodeError>)
    ensures v.Number? ==> r == Ok(OffZero(v.n))
    ensures r.Ok? && r.value.OffZero? ==> v == Number(r.value.v)
    ensures r.Ok? && r.value.OffFarEdge? ==> v.Mapping?
    ensures v.Integer? || v.Other? ==> r == Err(InvalidType)
  {
    match v
    case Number(n) => Ok(OffZero(n))
    case Mapping(entries) =>
      (match VisitEntries(entries, None)
       case Ok(x) => Ok(OffFarEdge(x))
       case Err(e) => Err(e))
    case Integer(_) => Err(InvalidType)
    case Other => Err(InvalidType)
  }

  /**
   * A map with exactly one "off far edge" entry, holding a float or an
   * integer of value x, decodes to OffFarEdge(x).
   */
  lemma {:induction false} DecodeFarEdge(entries: seq<(string, Value)>, i: nat, x: real)
    requires i < |entries| && entries[i].0 == FarEdgeKey && FieldValue(entries[i].1) == Some(x)
    requires forall j :: 0 <= j < |entries| && j != i ==> entries[j].0 != FarEdgeKey
    ensures Decode(Mapping(entries)) == Ok(OffFarEdge(x))
  {
    VisitUnique(entries, i, x);
  }

  lemma {:induction false} VisitUnique(entries: seq<(string, Value)>, i: nat, x: real)
    requires i < |entries| && entries[i].0 == FarEdgeKey && FieldValue(entries[i].1) == Some(x)
    requires forall j :: 0 <= j < |entries| && j != i ==> entries[j].0 != FarEdgeKey
    ensures VisitEntries(entries, None) == Ok(x)
    decreases |entries|
  {
    if i == 0 {
      VisitSkips(entries[1..], x);
    } else {
      VisitUnique(entries[1..], i - 1, x);
    }
  }

  /** Once the value is known, entries without the key leave it as it is. */
  lemma {:induction false} VisitSkips(entries: seq<(string, Value)>, x: real)
    requires forall j :: 0 <= j < |entries| ==> entries[j].0 != FarEdgeKey
    ensures VisitEntries(entries, Some(x)) == Ok(x)
    decreases |entries|
  {
    if entries != [] {
      VisitSkips(entries[1..], x);
    }
  }

  /** A map without the "off far edge" key is an error, not a default coordinate. */
  lemma {:induction false} DecodeMissingKey(entries: seq<(string, Value)>)
    requires forall j :: 0 <= j < |entries| ==> entries[j].0 != FarEdgeKey
    ensures Decode(Mapping(entries)) == Err(MissingField)
    decreases |entries|
  {
    VisitMissing(entries);
  }

  lemma {:induction false} VisitMissing(entries: seq<(string, Value)>)
    requires forall j :: 0 <= j < |entries| ==> entries[j].0 != FarEdgeKey
    ensures VisitEntries(entries, None) == Err(MissingField)
    decreases |entries|
  {
    if entries != [] {
      VisitMissing(entries[1..]);
    }
  }

  /**
   * Whatever a map decodes to as a far-edge coordinate, the value came from an
   * "off far edge" entry holding that number, as a float or as an integer.
   */
  lemma {:induction false} DecodeFarEdgeComesFromEntry(entries: seq<(string, Value)>, x: real)
    requires Decode(Mapping(entries)) == Ok(OffFarEdge(x))
    ensures exists i :: 0 <= i < |entries| && entries[i].0 == FarEdgeKey && FieldValue(entries[i].1) == Some(x)
  {
    VisitFound(entries, None, x);
  }

  lemma {:induction false} VisitFound(entries: seq<(string, Value)>, seen: Option<real>, x: real)
    requires VisitEntries(entries, seen) == Ok(x)
    ensures seen == Some(x) || exists i :: 0 <= i < |entries| && entries[i].0 == FarEdgeKey && FieldValue(entries[i].1) == Some(x)
    decreases |entries|
  {
    if entries != [] {
      var next := if entries[0].0 == FarEdgeKey then FieldValue(entries[0].1) else seen;
      VisitFound(entries[1..], next, x);
      var rest := entries[1..];
      if exists i :: 0 <= i < |rest| && rest[i].0 == FarEdgeKey && FieldValue(rest[i].1) == Some(x) {
        var i :| 0 <= i < |rest| && rest[i].0 == FarEdgeKey && FieldValue(rest[i].1) == Some(x);
        assert entries[i + 1] == rest[i];
      }
    }
  }

  /**
   * A second "off far edge" key after a numeric first one is an error, even
   * when both carry the same number.
   */
  lemma {:induction false} DecodeDuplicateKey(entries: seq<(string, Value)>, i: nat, j: nat)
    requires i < j < |entries|
    requires entries[i].0 == FarEdgeKey && FieldValue(entries[i].1).Some? && entries[j].0 == FarEdgeKey
    requires forall k :: 0 <= k < j && k != i ==> entries[k].0 != FarEdgeKey
    ensures Decode(Mapping(entries)) == Err(DuplicateField)
  {
    VisitDuplicate(entries, None, i, j);
  }

  lemma {:induction false} VisitDuplicate(entries: seq<(string, Value)>, seen: Option<real>, i: nat, j: nat)
    requires seen.None? && i < j < |entries|
    requires entries[i].0 == FarEdgeKey && FieldValue(entries[i].1).Some? && entries[j].0 == FarEdgeKey
    requires forall k :: 0 <= k < j && k != i ==> entries[k].0 != FarEdgeKey
    ensures VisitEntries(entries, seen) == Err(DuplicateField)
    decreases |entries|
  {
    if i == 0 {
      VisitSeenDuplicate(entries[1..], FieldValue(entries[0].1).value, j - 1);
    } else {
      VisitDuplicate(entries[1..], seen, i - 1, j - 1);
    }
  }

  lemma {:induction false} VisitSeenDuplicate(entries: seq<(string, Value)>, x: real, j: nat)
    requires j < |entries| && entries[j].0 == FarEdgeKey
    requires forall k :: 0 <= k < j ==> entries[k].0 != FarEdgeKey
    ensures VisitEntries(entries, Some(x)) == Err(DuplicateField)
    decreases |entries|
  {
    if j > 0 {
      VisitSeenDuplicate(entries[1..], x, j - 1);
    }
  }

  /**
   * A far-edge offset may be written as an integer; a bare integer is not
   * a coordinate.
   */
  lemma IntegerOffsets()
    ensures Decode(Mapping([(FarEdgeKey, Integer(0))])) == Ok(OffFarEdge(0.0))
    ensures Decode(Mapping([("unit", Other), (FarEdgeKey, Integer(12))])) == Ok(OffFarEdge(12.0))
    ensures Decode(Integer(4)) == Err(InvalidType)
  {
    DecodeFarEdge([(FarEdgeKey, Integer(0))], 0, 0.0);
    DecodeFarEdge([("unit", Other), (FarEdgeKey, Integer(12))], 1, 12.0);
  }
}
