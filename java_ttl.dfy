/** The Java port (java/TestPerformance.java), over Gson's JsonObject, whose
    members are the map `root`. Both lookups answer null, here None, when
    nothing is found. A missing member the code dereferences, or a member of
    the wrong kind, throws an exception nothing catches, so what the code
    reads is its precondition. */
module JavaTtl {
  import opened Json
  import opened Entries

  /** getAsString is called on each tag the inner loop reaches: every tag up
      to the first one equal to `recordType` is a string. */
  predicate TagsReadable(tags: seq<JVal>, recordType: string)
  {
    tags == [] || (tags[0].JStr? && (tags[0].s == recordType || TagsReadable(tags[1..], recordType)))
  }

  /** getAsJsonObject and getAsJsonArray("types") succeed, and the tags read
      are strings. */
  predicate IsEntry(e: JVal, recordType: string)
  {
    e.JObj? && "types" in e.fields && e.fields["types"].JArr?
    && TagsReadable(e.fields["types"].items, recordType)
  }

  /** Every entry up to the first tagged one is readable, and that entry has a
      numeric "value" for getAsInt. Entries after it are never touched. */
  predicate Scannable(items: seq<JVal>, recordType: string)
  {
    items == [] ||
    (IsEntry(items[0], recordType) &&
     if Tagged(items[0], recordType) then "value" in items[0].fields && items[0].fields["value"].JNum?
     else Scannable(items[1..], recordType))
  }

  /** getTTLArray runs without throwing: a present "ttl0_data" is an array the
      loops can scan. */
  predicate ArrayReady(root: map<string, JVal>, recordType: string)
  {
    "ttl0_data" in root ==> root["ttl0_data"].JArr? && Scannable(root["ttl0_data"].items, recordType)
  }

  lemma {:induction false} ScannableFirst(items: seq<JVal>, recordType: string)
    requires Scannable(items, recordType)
    ensures FirstTagged(items, recordType).Some? ==>
              var i := FirstTagged(items, recordType).value;
              items[i].JObj? && "value" in items[i].fields && items[i].fields["value"].JNum?
  {
    if items != [] && !Tagged(items[0], recordType) {
      ScannableFirst(items[1..], recordType);
    }
  }

  /** What getTTLArray returns: null without "ttl0_data", else the "value" of
      the first tagged entry, else null. */
  function ArrayLookup(root: map<string, JVal>, recordType: string): Option<int>
    requires ArrayReady(root, recordType)
  {
    if "ttl0_data" !in root then None
    else
      var items := root["ttl0_data"].items;
      match FirstTagged(items, recordType)
      case Some(i) => ScannableFirst(items, recordType); Some(items[i].fields["value"].n)
      case None => None
  }

  /** getTTLArray: nested for-each loops with an early return. */
  method GetTTLArray(root: map<string, JVal>, recordType: string) returns (r: Option<int>)
    requires ArrayReady(root, recordType)
    ensures r == ArrayLookup(root, recordType)
    ensures "ttl0_data" !in root ==> r == None
  {
    if "ttl0_data" !in root {
      return None;
    }
    var items := root["ttl0_data"].items;
    var i := 0;
    while i < |items|
      invariant 0 <= i <= |items|
      invariant forall j :: 0 <= j < i ==> !Tagged(items[j], recordType)
      invariant Scannable(items[i..], recordType)
    {
      var entry := items[i];
      assert items[i..][0] == entry && items[i..][1..] == items[i + 1..];
      var types := entry.fields["types"].items;
      var k := 0;
      while k < |types|
        invariant 0 <= k <= |types|
        invariant forall m :: 0 <= m < k ==> types[m] != JStr(recordType)
        invariant TagsReadable(types[k..], recordType)
      {
        assert types[k..][0] == types[k] && types[k..][1..] == types[k + 1..];
        if types[k].s == recordType {
          return Some(entry.fields["value"].n);
        }
        k := k + 1;
      }
      i := i + 1;
    }
    return None;
  }

  /** getTTLObject runs without throwing: a present "ttl0_data" is an object,
      and a present record is an object with a numeric "value". */
  predicate ObjectReady(root: map<string, JVal>, recordType: string)
  {
    "ttl0_data" in root ==>
      root["ttl0_data"].JObj? &&
      (recordType in root["ttl0_data"].fields ==>
         var record := root["ttl0_data"].fields[recordType];
         record.JObj? && "value" in record.fields && record.fields["value"].JNum?)
  }

  /** getTTLObject: null when "ttl0_data" or the record is absent, the record's
      "value" otherwise. */
  function GetTTLObject(root: map<string, JVal>, recordType: string): (r: Option<int>)
    requires ObjectReady(root, recordType)
    ensures r.Some? <==> "ttl0_data" in root && recordType in root["ttl0_data"].fields
    ensures r.Some? ==> r.value == root["ttl0_data"].fields[recordType].fields["value"].n
  {
    if "ttl0_data" !in root then None
    else
      var ttl0Data := root["ttl0_data"].fields;
      if recordType in ttl0Data then Some(ttl0Data[recordType].fields["value"].n)
      else None
  }

  /** benchmark: `result` starts null and is reassigned on each step; the
      source discards it and returns only the elapsed time, which is not
      modelled. It is exposed here as `last`. */
  method Benchmark(data: map<string, JVal>, recordType: string, iterations: int, useArray: bool)
    returns (last: Option<int>)
    requires iterations >= 1 ==> if useArray then ArrayReady(data, recordType) else ObjectReady(data, recordType)
    ensures iterations < 1 ==> last == None
    ensures iterations >= 1 && useArray ==> last == ArrayLookup(data, recordType)
    ensures iterations >= 1 && !useArray ==> last == GetTTLObject(data, recordType)
  {
    last := None;
    var i := 0;
    while i < iterations
      invariant 0 <= i && (i == 0 || i <= iterations)
      invariant i == 0 ==> last == None
      invariant i >= 1 && useArray ==> last == ArrayLookup(data, recordType)
      invariant i >= 1 && !useArray ==> last == GetTTLObject(data, recordType)
    {
      if useArray {
        last := GetTTLArray(data, recordType);
      } else {
        last := GetTTLObject(data, recordType);
      }
      i := i + 1;
    }
  }

}
