/** The C port (c/test_performance.c), over json-c objects. Both lookups
    return -1 when nothing is found. */
module CTtl {
  import opened Json
  import opened Entries

  predicate IsSpace(c: char)
  {
    c == ' ' || 9 <= c as int <= 13
  }

  predicate IsDigit(c: char)
  {
    '0' <= c <= '9'
  }

  /** `acc` extended by the leading run of decimal digits of `s`. */
  function Digits(s: string, acc: nat): nat
  {
    if s == [] || !IsDigit(s[0]) then acc
    else Digits(s[1..], acc * 10 + (s[0] as int - '0' as int))
  }

  /** strtoll in base 10: leading white space, an optional sign, then the
      longest run of digits; 0 when there are none. */
  function LeadingInt(s: string): int
  {
    if s != [] && IsSpace(s[0]) then LeadingInt(s[1..])
    else if s != [] && s[0] == '-' then -(Digits(s[1..], 0) as int)
    else if s != [] && s[0] == '+' then Digits(s[1..], 0)
    else Digits(s, 0)
  }

  /** json_object_get_int (without its clamping to the 32-bit range): a
      number as is, a boolean as 1 or 0, a string by its leading integer, and
      0 for null, arrays and objects. */
  function GetInt(v: JVal): int
  {
    match v
    case JNull => 0
    case JBool(b) => if b then 1 else 0
    case JNum(n) => n
    case JStr(s) => LeadingInt(s)
    case JArr(_) => 0
    case JObj(_) => 0
  }

  /** An entry the C loop returns from: tagged with `recordType` and holding
      "value". A tagged entry without "value" does not qualify. */
  predicate Qualifies(e: JVal, recordType: string)
  {
    e.JObj? && "value" in e.fields && Tagged(e, recordType)
  }

  /** The index of the first qualifying entry. */
  function FirstQualified(items: seq<JVal>, recordType: string): (r: Option<nat>)
    ensures r.Some? ==> r.value < |items| && Qualifies(items[r.value], recordType)
    ensures forall j :: 0 <= j < |items| && (r.None? || j < r.value) ==> !Qualifies(items[j], recordType)
  {
    if items == [] then None
    else if Qualifies(items[0], recordType) then Some(0)
    else match FirstQualified(items[1..], recordType)
      case None => None
      case Some(k) => Some(k + 1)
  }

  /** The json-c calls of get_ttl_array are defined on an entry it reads when
      a present "types" is an array of strings. */
  predicate EntryShaped(e: JVal)
  {
    e.JObj? && "types" in e.fields ==>
      e.fields["types"].JArr? && forall t :: t in e.fields["types"].items ==> t.JStr?
  }

  /** Every entry the loop reaches, up to and including the first qualifying
      one, is shaped; entries after it are never read. */
  predicate Reached(items: seq<JVal>, recordType: string)
  {
    items == [] ||
    (EntryShaped(items[0]) && (Qualifies(items[0], recordType) || Reached(items[1..], recordType)))
  }

  /** get_ttl_array's json-c calls are defined: a present "ttl0_data" is an
      array whose reached entries are shaped. */
  predicate ArrayShaped(root: JVal, recordType: string)
  {
    root.JObj? && "ttl0_data" in root.fields ==>
      root.fields["ttl0_data"].JArr? && Reached(root.fields["ttl0_data"].items, recordType)
  }

  /** What get_ttl_array returns. */
  function ArrayLookup(root: JVal, recordType: string): int
  {
    if root.JObj? && "ttl0_data" in root.fields && root.fields["ttl0_data"].JArr? then
      var items := root.fields["ttl0_data"].items;
      match FirstQualified(items, recordType)
      case Some(i) => GetInt(items[i].fields["value"])
      case None => -1
    else
      -1
  }

  /** get_ttl_array: index loops over the entries and their tags; an entry
      without "types" is passed over, and so is a matching tag whose entry
      has no "value". */
  method GetTtlArray(root: JVal, recordType: string) returns (r: int)
    requires ArrayShaped(root, recordType)
    ensures r == ArrayLookup(root, recordType)
    ensures !(root.JObj? && "ttl0_data" in root.fields) ==> r == -1
  {
    if !(root.JObj? && "ttl0_data" in root.fields) {
      return -1;
    }
    var items := root.fields["ttl0_data"].items;
    var i := 0;
    while i < |items|
      invariant 0 <= i <= |items|
      invariant forall j :: 0 <= j < i ==> !Qualifies(items[j], recordType)
      invariant Reached(items[i..], recordType)
    {
      var entry := items[i];
      assert items[i..][0] == entry && items[i..][1..] == items[i + 1..];
      if entry.JObj? && "types" in entry.fields {
        var types := entry.fields["types"].items;
        var k := 0;
        while k < |types|
          invariant 0 <= k <= |types|
          invariant "value" in entry.fields ==> forall m :: 0 <= m < k ==> types[m] != JStr(recordType)
        {
          assert types[k] in types;
          if types[k].s == recordType {
            if "value" in entry.fields {
              return GetInt(entry.fields["value"]);
            }
          }
          k := k + 1;
        }
      }
      i := i + 1;
    }
    return -1;
  }

  /** An entry that does not qualify (no "types", or a matching tag but no
      "value") is passed over and the scan goes on with the later entries. */
  lemma FirstQualifiedSkips(e: JVal, rest: seq<JVal>, recordType: string)
    requires !Qualifies(e, recordType)
    ensures FirstQualified([e] + rest, recordType) ==
            match FirstQualified(rest, recordType)
            case Some(k) => Some(k + 1)
            case None => None
  {
  }

  /** An entry after the first qualifying one is never read, whatever its
      "types" holds. */
  lemma TrailingEntryUnread()
    ensures var root := JObj(map["ttl0_data" := JArr([
                          JObj(map["types" := JArr([JStr("A")]), "value" := JNum(1)]),
                          JObj(map["types" := JNum(5)])])]);
            ArrayShaped(root, "A") && ArrayLookup(root, "A") == 1
  {
    var first := JObj(map["types" := JArr([JStr("A")]), "value" := JNum(1)]);
    assert JStr("A") in TagsOf(first);
    assert Qualifies(first, "A");
  }

  /** The record's "value" is reachable: the root, "ttl0_data" and the record
      are objects and each holds the next key. */
  predicate HasRecordValue(root: JVal, recordType: string)
  {
    root.JObj? && "ttl0_data" in root.fields && root.fields["ttl0_data"].JObj?
    && recordType in root.fields["ttl0_data"].fields
    && root.fields["ttl0_data"].fields[recordType].JObj?
    && "value" in root.fields["ttl0_data"].fields[recordType].fields
  }

  /** get_ttl_object: json_object_object_get_ex fails on a missing key and on
      a non-object, so every miss gives -1. */
  function GetTtlObject(root: JVal, recordType: string): (r: int)
    ensures HasRecordValue(root, recordType) ==>
              r == GetInt(root.fields["ttl0_data"].fields[recordType].fields["value"])
    ensures !HasRecordValue(root, recordType) ==> r == -1
  {
    if !(root.JObj? && "ttl0_data" in root.fields) then -1
    else
      var ttl0Data := root.fields["ttl0_data"];
      if ttl0Data.JObj? && recordType in ttl0Data.fields then
        var recordData := ttl0Data.fields[recordType];
        if recordData.JObj? && "value" in recordData.fields then GetInt(recordData.fields["value"])
        else -1
      else -1
  }

  /** The result of the lookup a strategy names. */
  function Lookup(data: JVal, getTtl: Strategy, recordType: string): int
  {
    match getTtl
    case UseArray => ArrayLookup(data, recordType)
    case UseObject => GetTtlObject(data, recordType)
  }

  /** benchmark: the loop reassigning the local `result`. The source never
      reads that local (it returns only the elapsed time); it is exposed here
      as `last`, None while no step has run. */
  method Benchmark(data: JVal, getTtl: Strategy, recordType: string, iterations: int) returns (last: Option<int>)
    requires iterations >= 1 && getTtl == UseArray ==> ArrayShaped(data, recordType)
    ensures last == if iterations >= 1 then Some(Lookup(data, getTtl, recordType)) else None
  {
    last := None;
    var i := 0;
    while i < iterations
      invariant 0 <= i && (i == 0 || i <= iterations)
      invariant last == if i == 0 then None else Some(Lookup(data, getTtl, recordType))
    {
      var result;
      if getTtl == UseArray {
        result := GetTtlArray(data, recordType);
      } else {
        result := GetTtlObject(data, recordType);
      }
      last := Some(result);
      i := i + 1;
    }
  }

}
