/**
 * The fixed, ordered table that renames spreadsheet header labels to the
 * canonical field names of the EventLog table (scripts/column_mapping.py).
 * A Python dict keeps insertion order, so the mapping is a sequence of pairs
 * in the order of the literal.
 */
module ColumnMapping {
  import opened Wrappers

  /** The spreadsheet label that holds the local timestamp, and its canonical name. */
  const SourceTimestamp: string := "Timestamp [Local]"
  const EventTimestamp: string := "EventTimestamp"

  const Mapping: seq<(string, string)> := [
    (SourceTimestamp, EventTimestamp),
    ("Category", "Category"),
    ("Event Type [*]", "EventType"),
    ("Area", "Area"),
    ("Node", "Node"),
    ("Unit", "Unit"),
    ("Module", "Module"),
    ("Module Description", "ModuleDescription"),
    ("Parameter", "Parameter"),
    ("State", "State"),
    ("Level", "Level"),
    ("Desc1", "Description1"),
    ("Desc2", "Description2")
  ]

  /** The labels of an association list, in order. */
  function KeysOf(m: seq<(string, string)>): (ks: seq<string>)
    ensures |ks| == |m|
    ensures forall i :: 0 <= i < |m| ==> ks[i] == m[i].0
  {
    if m == [] then [] else [m[0].0] + KeysOf(m[1..])
  }

  /** The values of an association list, in order (what `dict.values()` yields). */
  function ValuesOf(m: seq<(string, string)>): (vs: seq<string>)
    ensures |vs| == |m|
    ensures forall i :: 0 <= i < |m| ==> vs[i] == m[i].1
  {
    if m == [] then [] else [m[0].1] + ValuesOf(m[1..])
  }

  /** The source labels the mapping knows, and the canonical names, in mapping order. */
  const SourceLabels: seq<string> := KeysOf(Mapping)
  const CanonicalNames: seq<string> := ValuesOf(Mapping)

  predicate Distinct(s: seq<string>) {
    forall i, j :: 0 <= i < j < |s| ==> s[i] != s[j]
  }

  /** Dictionary lookup: the value of the first entry whose key is `k`. */
  function Find(m: seq<(string, string)>, k: string): (r: Option<string>)
    ensures r.None? <==> k !in KeysOf(m)
    ensures r.Some? ==> exists i :: 0 <= i < |m| && m[i] == (k, r.value)
  {
    if m == [] then None
    else if m[0].0 == k then Some(m[0].1)
    else Find(m[1..], k)
  }

  /**
   * How `DataFrame.rename(columns=column_mapping)` treats one header label:
   * a known label becomes its canonical name, any other label is kept.
   */
  function Rename(h: string): string {
    match Find(Mapping, h)
    case Some(name) => name
    case None => h
  }

  /** The mapping has 13 entries, distinct keys, distinct values, and starts with the timestamp entry. */
  lemma MappingShape()
    ensures |Mapping| == 13 && |SourceLabels| == 13 && |CanonicalNames| == 13
    ensures Distinct(SourceLabels)
    ensures Distinct(CanonicalNames)
    ensures SourceLabels[0] == SourceTimestamp && CanonicalNames[0] == EventTimestamp
  {
    SourceLabelsDistinct();
    CanonicalNamesDistinct();
  }

  lemma SourceLabelsDistinct()
    ensures Distinct(SourceLabels)
  {
    var labels := ["Timestamp [Local]", "Category", "Event Type [*]", "Area", "Node", "Unit", "Module",
                   "Module Description", "Parameter", "State", "Level", "Desc1", "Desc2"];
    assert Distinct(labels);
    assert SourceLabels == labels;
  }

  lemma CanonicalNamesDistinct()
    ensures Distinct(CanonicalNames)
  {
    var names := ["EventTimestamp", "Category", "EventType", "Area", "Node", "Unit", "Module",
                  "ModuleDescription", "Parameter", "State", "Level", "Description1", "Description2"];
    assert Distinct(names);
    assert CanonicalNames == names;
  }

  /** With distinct keys, looking up the key of entry `i` yields the value of entry `i`. */
  lemma {:induction false} FindEntry(m: seq<(string, string)>, i: int)
    requires Distinct(KeysOf(m))
    requires 0 <= i < |m|
    ensures Find(m, m[i].0) == Some(m[i].1)
  {
    if i > 0 {
      assert KeysOf(m)[0] != KeysOf(m)[i];
      assert Distinct(KeysOf(m[1..])) by {
        forall a, b | 0 <= a < b < |m| - 1 ensures KeysOf(m[1..])[a] != KeysOf(m[1..])[b] {
          assert KeysOf(m)[a + 1] != KeysOf(m)[b + 1];
        }
      }
      FindEntry(m[1..], i - 1);
    }
  }

  /** Renaming sends the `j`-th source label to the `j`-th canonical name. */
  lemma RenameLabel(j: int)
    requires 0 <= j < |Mapping|
    ensures Rename(SourceLabels[j]) == CanonicalNames[j]
  {
    MappingShape();
    FindEntry(Mapping, j);
  }

  /** "Timestamp [Local]" is renamed to "EventTimestamp", which is one of the projected columns. */
  lemma TimestampEntry()
    ensures Rename(SourceTimestamp) == EventTimestamp
    ensures EventTimestamp in CanonicalNames
  {
    MappingShape();
    RenameLabel(0);
  }

  /**
   * The only label renamed to the `j`-th canonical name is the `j`-th source
   * label, unless an unmapped label already carries that canonical name: the
   * mapping never merges two mapped columns into one.
   */
  lemma RenameInverse(h: string, j: int)
    requires 0 <= j < |Mapping|
    requires Rename(h) == CanonicalNames[j]
    requires h in SourceLabels || h !in CanonicalNames
    ensures h == SourceLabels[j]
  {
    MappingShape();
    if h in SourceLabels {
      var i :| 0 <= i < |Mapping| && SourceLabels[i] == h;
      RenameLabel(i);
      assert CanonicalNames[i] == CanonicalNames[j];
    }
  }
}
