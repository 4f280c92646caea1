/** How the ports that keep the decoded document (Python, C, Java) see an entry
    of the array-shaped record set, and which strategy a benchmark repeats. */
module Entries {
  import opened Json

  /** The lookup strategy a benchmark driver repeats; stands for the function
      (pointer) or flag the driver is handed. */
  datatype Strategy = UseArray | UseObject

  /** The tags of an entry: its "types" member when the entry is an object and
      that member is an array, no tags otherwise. */
  function TagsOf(e: JVal): seq<JVal>
  {
    if e.JObj? && "types" in e.fields && e.fields["types"].JArr? then e.fields["types"].items else []
  }

  /** The entry lists `recordType` among its tags. */
  predicate Tagged(e: JVal, recordType: string)
  {
    JStr(recordType) in TagsOf(e)
  }

  /** The index of the first entry, in array order, tagged with `recordType`. */
  function FirstTagged(items: seq<JVal>, recordType: string): (r: Option<nat>)
    ensures r.Some? ==> r.value < |items| && Tagged(items[r.value], recordType)
    ensures forall j :: 0 <= j < |items| && (r.None? || j < r.value) ==> !Tagged(items[j], recordType)
  {
    if items == [] then None
    else if Tagged(items[0], recordType) then Some(0)
    else match FirstTagged(items[1..], recordType)
      case None => None
      case Some(k) => Some(k + 1)
  }

}
