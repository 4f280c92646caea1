/** The Python port (python/test_performance.py). It works on the decoded
    document directly; a missing key or a wrong type raises an exception the
    program does not catch, so what each function reads is its precondition. */
module PythonTtl {
  import opened Json
  import opened Entries

  /** Python truthiness of a decoded value. */
  predicate Truthy(v: JVal)
  {
    match v
    case JNull => false
    case JBool(b) => b
    case JNum(n) => n != 0
    case JStr(s) => s != ""
    case JArr(items) => items != []
    case JObj(fields) => fields != map[]
  }

  /** An entry the loop can read: a dict whose "types" is a list. */
  predicate IsEntry(e: JVal)
  {
    e.JObj? && "types" in e.fields && e.fields["types"].JArr?
  }

  /** What the for loop reads: every entry up to the first tagged one is an
      entry, and that tagged entry has "value". Entries after it are never
      touched. */
  predicate Scannable(items: seq<JVal>, recordType: string)
  {
    items == [] ||
    (IsEntry(items[0]) &&
     if Tagged(items[0], recordType) then "value" in items[0].fields
     else Scannable(items[1..], recordType))
  }

  /** The lookup runs without raising: `data['ttl0_data']` exists and is a
      list the loop can scan. */
  predicate ArrayReady(data: JVal, recordType: string)
  {
    data.JObj? && "ttl0_data" in data.fields && data.fields["ttl0_data"].JArr?
    && Scannable(data.fields["ttl0_data"].items, recordType)
  }

  lemma {:induction false} ScannableFirst(items: seq<JVal>, recordType: string)
    requires Scannable(items, recordType)
    ensures FirstTagged(items, recordType).Some? ==>
              var i := FirstTagged(items, recordType).value;
              items[i].JObj? && "value" in items[i].fields
  {
    if items != [] && !Tagged(items[0], recordType) {
      ScannableFirst(items[1..], recordType);
    }
  }

  /** What get_ttl_array returns: `entry['value']` of the first tagged entry,
      or None. */
  function ArrayLookup(items: seq<JVal>, recordType: string): JVal
    requires Scannable(items, recordType)
  {
    match FirstTagged(items, recordType)
    case Some(i) => ScannableFirst(items, recordType); items[i].fields["value"]
    case None => JNull
  }

  /** get_ttl_array: the for loop with its early return. */
  method GetTtlArray(data: JVal, recordType: string) returns (r: JVal)
    requires ArrayReady(data, recordType)
    ensures r == ArrayLookup(data.fields["ttl0_data"].items, recordType)
    ensures (forall j :: 0 <= j < |data.fields["ttl0_data"].items| ==> !Tagged(data.fields["ttl0_data"].items[j], recordType))
            ==> r == JNull
  {
    var items := data.fields["ttl0_data"].items;
    var i := 0;
    while i < |items|
      invariant 0 <= i <= |items|
      invariant forall j :: 0 <= j < i ==> !Tagged(items[j], recordType)
      invariant Scannable(items[i..], recordType)
    {
      var entry := items[i];
      assert items[i..][0] == entry && items[i..][1..] == items[i + 1..];
      if JStr(recordType) in entry.fields["types"].items {
        return entry.fields["value"];
      }
      i := i + 1;
    }
    return JNull;
  }

  /** get_ttl_object can run: `data['ttl0_data']` is a dict (it needs `.get`),
      and a truthy record is a dict too. */
  predicate ObjectReady(data: JVal, recordType: string)
  {
    data.JObj? && "ttl0_data" in data.fields && data.fields["ttl0_data"].JObj?
    && (recordType in data.fields["ttl0_data"].fields && Truthy(data.fields["ttl0_data"].fields[recordType])
        ==> data.fields["ttl0_data"].fields[recordType].JObj?)
  }

  /** get_ttl_object: None for a missing or falsy (null, empty) record, the
      record's "value" otherwise, None when that is missing. */
  function GetTtlObject(data: JVal, recordType: string): (r: JVal)
    requires ObjectReady(data, recordType)
    ensures var records := data.fields["ttl0_data"].fields;
            r != JNull ==> recordType in records && records[recordType].JObj?
                           && records[recordType].fields != map[]
                           && "value" in records[recordType].fields
                           && r == records[recordType].fields["value"]
    ensures var records := data.fields["ttl0_data"].fields;
            recordType in records && records[recordType].JObj? && "value" in records[recordType].fields
            ==> r == records[recordType].fields["value"]
  {
    var records := data.fields["ttl0_data"].fields;
    var recordData := if recordType in records then records[recordType] else JNull;
    if Truthy(recordData) then
      if "value" in recordData.fields then recordData.fields["value"] else JNull
    else
      JNull
  }

  /** The precondition of the lookup a strategy names. */
  predicate Ready(data: JVal, getTtl: Strategy, recordType: string)
  {
    match getTtl
    case UseArray => ArrayReady(data, recordType)
    case UseObject => ObjectReady(data, recordType)
  }

  /** The result of the lookup a strategy names. */
  function Lookup(data: JVal, getTtl: Strategy, recordType: string): JVal
    requires Ready(data, getTtl, recordType)
  {
    match getTtl
    case UseArray => ArrayLookup(data.fields["ttl0_data"].items, recordType)
    case UseObject => GetTtlObject(data, recordType)
  }

  /** benchmark: `result` is reassigned on each of `iterations` steps and
      returned. With no iteration Python raises UnboundLocalError, hence
      `iterations >= 1`. Timing is not modelled. */
  method Benchmark(data: JVal, getTtl: Strategy, recordType: string, iterations: int) returns (result: JVal)
    requires Ready(data, getTtl, recordType)
    requires iterations >= 1
    ensures result == Lookup(data, getTtl, recordType)
  {
    result := JNull;  // unbound in Python until the first step assigns it
    var i := 0;
    while i < iterations
      invariant 0 <= i <= iterations
      invariant i >= 1 ==> result == Lookup(data, getTtl, recordType)
    {
      if getTtl == UseArray {
        result := GetTtlArray(data, recordType);
      } else {
        result := GetTtlObject(data, recordType);
      }
      i := i + 1;
    }
  }

}
