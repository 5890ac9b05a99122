/**
 * `LocationCast`: an immutable snapshot of the host's navigation state, and
 * the comparison of a snapshot with the host's current values.
 */
module Snapshot {
  import opened Json

  /** The two fields of the host's `Location` object that are observed. */
  datatype Location = Location(pathname: string, search: string)

  datatype LocationCast = LocationCast(pathname: string, search: string, state: Json)
  {
    /**
     * True when the current host values differ from this snapshot: the path
     * differs, or the query string differs, or the state is not deeply equal.
     * The checks run in that order and short-circuit.
     */
    function IsUpdated(historyState: Json, location: Location): (r: bool)
      ensures r <==> pathname != location.pathname || search != location.search || state != historyState
      ensures r <==> Capture(historyState, location) != this
    {
      DeepEqualIsEquality(state, historyState);
      pathname != location.pathname
      || search != location.search
      || !DeepEqual(state, historyState)
    }
  }

  /**
   * The `LocationCast` constructor: copies the history state and the
   * location's search and pathname, untransformed. It has no failure case.
   */
  function Capture(historyState: Json, location: Location): (c: LocationCast)
    ensures c.state == historyState
    ensures c.search == location.search
    ensures c.pathname == location.pathname
  {
    LocationCast(location.pathname, location.search, historyState)
  }

  /** A snapshot taken from some host values is not updated against those values. */
  lemma CaptureIsNotUpdated(historyState: Json, location: Location)
    ensures !Capture(historyState, location).IsUpdated(historyState, location)
  {
  }

  /**
   * Changing one field inside an object-valued state, while path and query
   * string stay the same, is detected.
   */
  lemma NestedStateChangeIsUpdated(c: LocationCast, fields: map<string, Json>, key: string, value: Json)
    requires c.state == JObject(fields)
    requires key in fields && fields[key] != value
    ensures c.IsUpdated(JObject(fields[key := value]), Location(c.pathname, c.search))
  {
    assert fields[key := value][key] == value;
  }
}
