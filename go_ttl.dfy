/** The Go port: typed fixtures, the two lookups and the two benchmark loops
    (src/go/test_performance.go). Go hands the fixtures over by pointer but
    only reads through it; here they are immutable values. */
module GoTtl {
  import opened Json

  /** One entry of the array-shaped set. A missing "types" decodes to no tags
      and a missing "value" to 0; other members are dropped by the decoder. */
  datatype ArrayEntry = ArrayEntry(types: seq<string>, value: int)

  datatype ArrayData = ArrayData(objectClassName: string, ldhName: string, ttl0Data: seq<ArrayEntry>)

  /** The map-shaped set. A nested record keeps every member as a dynamic
      value; a JSON null record decodes to an empty (nil) map. */
  datatype ObjectData = ObjectData(objectClassName: string, ldhName: string, ttl0Data: map<string, map<string, JVal>>)

  /** The index of the first entry whose tags contain `recordType`. */
  function FirstTagged(entries: seq<ArrayEntry>, recordType: string): (r: Option<nat>)
    ensures r.Some? ==> r.value < |entries| && recordType in entries[r.value].types
    ensures forall j :: 0 <= j < |entries| && (r.None? || j < r.value) ==> recordType !in entries[j].types
  {
    if entries == [] then None
    else if recordType in entries[0].types then Some(0)
    else match FirstTagged(entries[1..], recordType)
      case None => None
      case Some(k) => Some(k + 1)
  }

  /** What getTTLArray returns: the value of the first matching entry and
      true, or (0, false). */
  function ArrayLookup(entries: seq<ArrayEntry>, recordType: string): (r: (int, bool))
    ensures r.1 <==> exists i :: 0 <= i < |entries| && recordType in entries[i].types
    ensures r.1 ==> exists i :: 0 <= i < |entries| && recordType in entries[i].types
                      && (forall j :: 0 <= j < i ==> recordType !in entries[j].types)
                      && r.0 == entries[i].value
    ensures !r.1 ==> r.0 == 0
  {
    match FirstTagged(entries, recordType)
    case Some(i) => (entries[i].value, true)
    case None => (0, false)
  }

  lemma {:induction false} FirstTaggedAppend(front: seq<ArrayEntry>, back: seq<ArrayEntry>, recordType: string)
    ensures FirstTagged(front + back, recordType) ==
              match FirstTagged(front, recordType)
              case Some(i) => Some(i)
              case None =>
                match FirstTagged(back, recordType)
                case Some(k) => Some(|front| + k)
                case None => None
  {
    if front == [] {
      assert front + back == back;
    } else {
      assert (front + back)[0] == front[0] && (front + back)[1..] == front[1..] + back;
      FirstTaggedAppend(front[1..], back, recordType);
    }
  }

  /** The scan is a first match: entries after a match never affect the
      result, and past a prefix without one the suffix alone decides. */
  lemma ArrayLookupAppend(front: seq<ArrayEntry>, back: seq<ArrayEntry>, recordType: string)
    ensures ArrayLookup(front + back, recordType) ==
              if ArrayLookup(front, recordType).1 then ArrayLookup(front, recordType)
              else ArrayLookup(back, recordType)
  {
    FirstTaggedAppend(front, back, recordType);
    match FirstTagged(back, recordType)
    case Some(k) => assert (front + back)[|front| + k] == back[k];
    case None =>
  }

  /** The nested range loops of getTTLArray, returning at the first tag equal
      to `recordType`. */
  method GetTTLArray(data: ArrayData, recordType: string) returns (value: int, found: bool)
    ensures (value, found) == ArrayLookup(data.ttl0Data, recordType)
  {
    var entries := data.ttl0Data;
    var i := 0;
    while i < |entries|
      invariant 0 <= i <= |entries|
      invariant forall j :: 0 <= j < i ==> recordType !in entries[j].types
    {
      var entry := entries[i];
      var k := 0;
      while k < |entry.types|
        invariant 0 <= k <= |entry.types|
        invariant forall m :: 0 <= m < k ==> entry.types[m] != recordType
      {
        if entry.types[k] == recordType {
          return entry.value, true;
        }
        k := k + 1;
      }
      i := i + 1;
    }
    return 0, false;
  }

  /** getTTLObject: found exactly when the record exists, has "value", and
      that value is a number (the int, int64 and float64 arms of the type
      switch; json.Unmarshal only ever produces float64). */
  function GetTTLObject(data: ObjectData, recordType: string): (r: (int, bool))
    ensures r.1 <==> recordType in data.ttl0Data && "value" in data.ttl0Data[recordType]
                     && data.ttl0Data[recordType]["value"].JNum?
    ensures r.1 ==> r.0 == data.ttl0Data[recordType]["value"].n
    ensures !r.1 ==> r.0 == 0
  {
    if recordType in data.ttl0Data && "value" in data.ttl0Data[recordType] then
      match data.ttl0Data[recordType]["value"]
      case JNum(n) => (n, true)
      case _ => (0, false)
    else
      (0, false)
  }

  /** Only the record under `recordType` matters to getTTLObject: other keys
      may be added, removed or changed. */
  lemma GetTTLObjectLocal(d: ObjectData, d': ObjectData, recordType: string)
    requires recordType in d.ttl0Data <==> recordType in d'.ttl0Data
    requires recordType in d.ttl0Data ==> d.ttl0Data[recordType] == d'.ttl0Data[recordType]
    ensures GetTTLObject(d, recordType) == GetTTLObject(d', recordType)
  {
  }

  /** benchmarkArray: repeats the lookup `iterations` times, keeping the last
      value; zero iterations leave the initial 0. Timing is not modelled. */
  method BenchmarkArray(data: ArrayData, recordType: string, iterations: int) returns (result: int)
    ensures result == if iterations >= 1 then ArrayLookup(data.ttl0Data, recordType).0 else 0
  {
    result := 0;
    var i := 0;
    while i < iterations
      invariant 0 <= i && (i == 0 || i <= iterations)
      invariant result == if i == 0 then 0 else ArrayLookup(data.ttl0Data, recordType).0
    {
      var found;
      result, found := GetTTLArray(data, recordType);
      i := i + 1;
    }
  }

  /** benchmarkObject: the same loop around getTTLObject. */
  method BenchmarkObject(data: ObjectData, recordType: string, iterations: int) returns (result: int)
    ensures result == if iterations >= 1 then GetTTLObject(data, recordType).0 else 0
  {
    result := 0;
    var i := 0;
    while i < iterations
      invariant 0 <= i && (i == 0 || i <= iterations)
      invariant result == if i == 0 then 0 else GetTTLObject(data, recordType).0
    {
      result := GetTTLObject(data, recordType).0;
      i := i + 1;
    }
  }

}
