/** The four ports agree on well-formed fixtures, each in its own encoding of
    "not found": Go (0, false), Python None, C -1, Java null. A well-formed
    array fixture is the JSON text of a Go ArrayData (every entry has string
    tags and a number "value"); a well-formed map fixture has a number "value"
    in every record. */
module PortAgreement {
  import opened Json
  import opened Entries
  import GoTtl
  import PythonTtl
  import CTtl
  import JavaTtl

  function TagsJson(types: seq<string>): (r: seq<JVal>)
    ensures |r| == |types| && forall i :: 0 <= i < |types| ==> r[i] == JStr(types[i])
  {
    seq(|types|, i requires 0 <= i < |types| => JStr(types[i]))
  }

  function EntryJson(e: GoTtl.ArrayEntry): JVal
  {
    JObj(map["types" := JArr(TagsJson(e.types)), "value" := JNum(e.value)])
  }

  function EntriesJson(entries: seq<GoTtl.ArrayEntry>): (r: seq<JVal>)
    ensures |r| == |entries| && forall i :: 0 <= i < |entries| ==> r[i] == EntryJson(entries[i])
  {
    seq(|entries|, i requires 0 <= i < |entries| => EntryJson(entries[i]))
  }

  /** The array fixture whose decoding is `d`. */
  function ArrayJson(d: GoTtl.ArrayData): JVal
  {
    JObj(map["objectClassName" := JStr(d.objectClassName), "ldhName" := JStr(d.ldhName),
             "ttl0_data" := JArr(EntriesJson(d.ttl0Data))])
  }

  /** An encoded entry is tagged exactly when its Go tags hold the record type. */
  lemma TaggedEntryJson(e: GoTtl.ArrayEntry, recordType: string)
    ensures Tagged(EntryJson(e), recordType) <==> recordType in e.types
  {
  }

  lemma EntriesJsonTail(entries: seq<GoTtl.ArrayEntry>)
    requires entries != []
    ensures EntriesJson(entries)[0] == EntryJson(entries[0])
    ensures EntriesJson(entries)[1..] == EntriesJson(entries[1..])
  {
  }

  /** The scan over the JSON entries picks the entry Go's scan picks. */
  lemma {:induction false} FirstTaggedJson(entries: seq<GoTtl.ArrayEntry>, recordType: string)
    ensures FirstTagged(EntriesJson(entries), recordType) == GoTtl.FirstTagged(entries, recordType)
  {
    if entries != [] {
      EntriesJsonTail(entries);
      TaggedEntryJson(entries[0], recordType);
      FirstTaggedJson(entries[1..], recordType);
    }
  }

  /** So does the C scan: every encoded entry has "value". */
  lemma {:induction false} FirstQualifiedJson(entries: seq<GoTtl.ArrayEntry>, recordType: string)
    ensures CTtl.FirstQualified(EntriesJson(entries), recordType) == GoTtl.FirstTagged(entries, recordType)
  {
    if entries != [] {
      EntriesJsonTail(entries);
      TaggedEntryJson(entries[0], recordType);
      FirstQualifiedJson(entries[1..], recordType);
    }
  }

  lemma {:induction false} PythonScannable(entries: seq<GoTtl.ArrayEntry>, recordType: string)
    ensures PythonTtl.Scannable(EntriesJson(entries), recordType)
  {
    if entries != [] {
      TaggedEntryJson(entries[0], recordType);
      EntriesJsonTail(entries);
      PythonScannable(entries[1..], recordType);
    }
  }

  lemma {:induction false} JavaTagsReadable(types: seq<string>, recordType: string)
    ensures JavaTtl.TagsReadable(TagsJson(types), recordType)
  {
    if types != [] {
      assert TagsJson(types)[1..] == TagsJson(types[1..]);
      JavaTagsReadable(types[1..], recordType);
    }
  }

  lemma {:induction false} JavaScannable(entries: seq<GoTtl.ArrayEntry>, recordType: string)
    ensures JavaTtl.Scannable(EntriesJson(entries), recordType)
  {
    if entries != [] {
      JavaTagsReadable(entries[0].types, recordType);
      EntriesJsonTail(entries);
      JavaScannable(entries[1..], recordType);
    }
  }

  lemma ArrayPythonAgrees(d: GoTtl.ArrayData, recordType: string)
    ensures var (value, found) := GoTtl.ArrayLookup(d.ttl0Data, recordType);
            && PythonTtl.ArrayReady(ArrayJson(d), recordType)
            && PythonTtl.ArrayLookup(EntriesJson(d.ttl0Data), recordType) == (if found then JNum(value) else JNull)
  {
    FirstTaggedJson(d.ttl0Data, recordType);
    PythonScannable(d.ttl0Data, recordType);
  }

  lemma {:induction false} CReached(entries: seq<GoTtl.ArrayEntry>, recordType: string)
    ensures CTtl.Reached(EntriesJson(entries), recordType)
  {
    if entries != [] {
      EntriesJsonTail(entries);
      CReached(entries[1..], recordType);
    }
  }

  lemma ArrayCAgrees(d: GoTtl.ArrayData, recordType: string)
    ensures var (value, found) := GoTtl.ArrayLookup(d.ttl0Data, recordType);
            && CTtl.ArrayShaped(ArrayJson(d), recordType)
            && CTtl.ArrayLookup(ArrayJson(d), recordType) == (if found then value else -1)
  {
    FirstQualifiedJson(d.ttl0Data, recordType);
    CReached(d.ttl0Data, recordType);
  }

  lemma ArrayJavaAgrees(d: GoTtl.ArrayData, recordType: string)
    ensures var (value, found) := GoTtl.ArrayLookup(d.ttl0Data, recordType);
            && JavaTtl.ArrayReady(ArrayJson(d).fields, recordType)
            && JavaTtl.ArrayLookup(ArrayJson(d).fields, recordType) == (if found then Some(value) else None)
  {
    FirstTaggedJson(d.ttl0Data, recordType);
    JavaScannable(d.ttl0Data, recordType);
  }

  /** On a well-formed array fixture every port finds what Go finds. */
  lemma ArrayPortsAgree(d: GoTtl.ArrayData, recordType: string)
    ensures var (value, found) := GoTtl.ArrayLookup(d.ttl0Data, recordType);
            var root := ArrayJson(d);
            && PythonTtl.ArrayReady(root, recordType)
            && PythonTtl.ArrayLookup(root.fields["ttl0_data"].items, recordType)
               == (if found then JNum(value) else JNull)
            && CTtl.ArrayShaped(root, recordType)
            && CTtl.ArrayLookup(root, recordType) == (if found then value else -1)
            && JavaTtl.ArrayReady(root.fields, recordType)
            && JavaTtl.ArrayLookup(root.fields, recordType) == (if found then Some(value) else None)
  {
    ArrayPythonAgrees(d, recordType);
    ArrayCAgrees(d, recordType);
    ArrayJavaAgrees(d, recordType);
  }

  /** A record as the map fixture holds it: an object with a number "value". */
  predicate WellFormedRecords(records: map<string, map<string, JVal>>)
  {
    forall k :: k in records ==> "value" in records[k] && records[k]["value"].JNum?
  }

  /** The map fixture whose decoding is `d`. */
  function ObjectJson(d: GoTtl.ObjectData): JVal
  {
    JObj(map["objectClassName" := JStr(d.objectClassName), "ldhName" := JStr(d.ldhName),
             "ttl0_data" := JObj(map k | k in d.ttl0Data :: JObj(d.ttl0Data[k]))])
  }

  /** On a well-formed map fixture every port finds what Go finds. */
  lemma ObjectPortsAgree(d: GoTtl.ObjectData, recordType: string)
    requires WellFormedRecords(d.ttl0Data)
    ensures var (value, found) := GoTtl.GetTTLObject(d, recordType);
            var root := ObjectJson(d);
            && PythonTtl.ObjectReady(root, recordType)
            && PythonTtl.GetTtlObject(root, recordType) == (if found then JNum(value) else JNull)
            && CTtl.GetTtlObject(root, recordType) == (if found then value else -1)
            && JavaTtl.ObjectReady(root.fields, recordType)
            && JavaTtl.GetTTLObject(root.fields, recordType) == (if found then Some(value) else None)
  {
  }

  /** Off the well-formed fixtures the ports part ways: a string "value" is
      not found by Go, returned as is by Python and parsed by C. */
  lemma StringValueDiverges()
    ensures var d := GoTtl.ObjectData("domain", "example.com", map["A" := map["value" := JStr("300")]]);
            && GoTtl.GetTTLObject(d, "A") == (0, false)
            && PythonTtl.GetTtlObject(ObjectJson(d), "A") == JStr("300")
            && CTtl.GetTtlObject(ObjectJson(d), "A") == 300
  {
    var d := GoTtl.ObjectData("domain", "example.com", map["A" := map["value" := JStr("300")]]);
    var records := ObjectJson(d).fields["ttl0_data"].fields;
    assert records["A"] == JObj(map["value" := JStr("300")]);
    assert "value" in records["A"].fields;
    assert PythonTtl.Truthy(records["A"]);
    assert "300"[1..] == "00" && "00"[1..] == "0" && "0"[1..] == "";
    assert CTtl.Digits("300", 0) == CTtl.Digits("00", 3) == CTtl.Digits("0", 30) == CTtl.Digits("", 300) == 300;
  }

}
