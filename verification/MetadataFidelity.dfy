/** Exactly which statistics survive printing and reading. */
module MetadataFidelity {
  import opened MetadataBlock
  import opened MetadataLaws

  // ----- What a value says, and what the parsed data says -----

  datatype Step = Key(name: string) | Index(number: nat)

  /** A text at the end of a path of keys and list positions, or an empty collection there. */
  datatype Leaf = Word(path: seq<Step>, text: string) | Hollow(path: seq<Step>)

  function Below(step: Step, leaf: Leaf): Leaf {
    leaf.(path := [step] + leaf.path)
  }

  function Under(step: Step, leaves: set<Leaf>): set<Leaf> {
    set leaf | leaf in leaves :: Below(step, leaf)
  }

  function Leaves(value: Value): set<Leaf>
    decreases value, 1
  {
    match value
    case Scalar(text) => {Word([], text)}
    case Table(entries) => TableLeaves(entries)
    case Listing(items) => if items == [] then {Hollow([])} else ItemLeaves(items, 0)
  }

  function TableLeaves(entries: seq<Entry>): set<Leaf>
    decreases entries, 1
  {
    if entries == [] then {Hollow([])} else EntryLeaves(entries)
  }

  function EntryLeaves(entries: seq<Entry>): set<Leaf>
    decreases entries, 0
  {
    if entries == [] then {} else Under(Key(entries[0].key), Leaves(entries[0].value)) + EntryLeaves(entries[1..])
  }

  function ItemLeaves(items: seq<Item>, n: nat): set<Leaf>
    decreases items, 0
  {
    if items == [] then {}
    else Under(Index(n), if items[0].Plain? then {Word([], items[0].text)} else TableLeaves(items[0].entries))
         + ItemLeaves(items[1..], n + 1)
  }

  function SubLeaves(sub: Sub): set<Leaf> {
    match sub
    case SubText(text) => {Word([], text)}
    case SubTable(fields) =>
      if fields == map[] then {Hollow([])} else set k | k in fields :: Word([Key(k)], fields[k])
  }

  /** The parsed data holds every text of the value under its own path, and nothing else. */
  predicate Faithful(sub: Sub, value: Value) {
    SubLeaves(sub) == Leaves(value)
  }

  predicate OneLevel(entries: seq<Entry>) {
    forall i :: 0 <= i < |entries| ==> entries[i].value.Scalar?
  }

  /** A scalar, a dictionary of scalars, or an empty list. */
  predicate Flat(value: Value) {
    match value
    case Scalar(_) => true
    case Table(entries) => OneLevel(entries)
    case Listing(items) => items == []
  }

  // ----- Flat values survive -----

  lemma {:induction false} WrittenHolds(fields: map<string, string>, settings: seq<Setting>, k: string)
    requires DistinctSettings(settings)
    ensures k in Written(fields, settings) <==> k in fields || exists i :: 0 <= i < |settings| && settings[i].key == k
    ensures k in fields && (forall i :: 0 <= i < |settings| ==> settings[i].key != k)
            ==> Written(fields, settings)[k] == fields[k]
    ensures forall i :: 0 <= i < |settings| && settings[i].key == k ==> Written(fields, settings)[k] == settings[i].text
    decreases settings
  {
    if settings != [] {
      WrittenHolds(fields[settings[0].key := settings[0].text], settings[1..], k);
      assert forall i :: 1 <= i < |settings| ==> settings[i] == settings[1..][i - 1];
    }
  }

  lemma {:induction false} OneLevelFlat(entries: seq<Entry>)
    requires OneLevel(entries)
    ensures var flat := FlatEntries(entries);
            |flat| == |entries|
            && forall i :: 0 <= i < |entries| ==> flat[i] == Setting(entries[i].key, entries[i].value.text)
  {
    if entries != [] {
      OneLevelFlat(entries[1..]);
    }
  }

  /** A one-level dictionary comes back with exactly its keys and texts. */
  lemma {:induction false} OneLevelReadBack(entries: seq<Entry>)
    requires OneLevel(entries) && DistinctKeys(entries)
    ensures var sub := ReadBack(Table(entries));
            && sub.SubTable?
            && (forall i :: 0 <= i < |entries| ==>
                  entries[i].key in sub.fields && sub.fields[entries[i].key] == entries[i].value.text)
            && (forall k :: k in sub.fields ==> exists i :: 0 <= i < |entries| && entries[i].key == k)
  {
    var flat := FlatEntries(entries);
    OneLevelFlat(entries);
    assert DistinctSettings(flat);
    var fields := Written(map[], flat);
    forall i | 0 <= i < |entries|
      ensures entries[i].key in fields && fields[entries[i].key] == entries[i].value.text
    {
      WrittenHolds(map[], flat, entries[i].key);
      assert flat[i].key == entries[i].key;
    }
    forall k | k in fields
      ensures exists i :: 0 <= i < |entries| && entries[i].key == k
    {
      WrittenHolds(map[], flat, k);
      var i :| 0 <= i < |flat| && flat[i].key == k;
      assert entries[i].key == k;
    }
  }

  lemma {:induction false} OneLevelLeaves(entries: seq<Entry>)
    requires OneLevel(entries)
    ensures forall leaf :: leaf in EntryLeaves(entries)
              <==> exists i :: 0 <= i < |entries| && leaf == Word([Key(entries[i].key)], entries[i].value.text)
  {
    if entries != [] {
      OneLevelLeaves(entries[1..]);
      var first := Word([Key(entries[0].key)], entries[0].value.text);
      assert Leaves(entries[0].value) == {Word([], entries[0].value.text)};
      assert Below(Key(entries[0].key), Word([], entries[0].value.text)) == first;
      assert Under(Key(entries[0].key), Leaves(entries[0].value)) == {first};
      forall leaf
        ensures leaf in EntryLeaves(entries)
                <==> exists i :: 0 <= i < |entries| && leaf == Word([Key(entries[i].key)], entries[i].value.text)
      {
        OneMoreEntry(entries, leaf, first);
      }
    }
  }

  lemma {:induction false} OneMoreEntry(entries: seq<Entry>, leaf: Leaf, first: Leaf)
    requires entries != [] && OneLevel(entries) && first == Word([Key(entries[0].key)], entries[0].value.text)
    requires Under(Key(entries[0].key), Leaves(entries[0].value)) == {first}
    requires var rest := entries[1..];
             leaf in EntryLeaves(rest)
             <==> exists i :: 0 <= i < |rest| && leaf == Word([Key(rest[i].key)], rest[i].value.text)
    ensures leaf in EntryLeaves(entries)
            <==> exists i :: 0 <= i < |entries| && leaf == Word([Key(entries[i].key)], entries[i].value.text)
  {
    var rest := entries[1..];
    if i :| 0 <= i < |rest| && leaf == Word([Key(rest[i].key)], rest[i].value.text) {
      assert entries[i + 1] == rest[i];
    }
    if i :| 0 < i < |entries| && leaf == Word([Key(entries[i].key)], entries[i].value.text) {
      assert rest[i - 1] == entries[i];
    }
  }

  lemma {:induction false} FlatSurvives(value: Value)
    requires Flat(value) && (value.Table? ==> DistinctKeys(value.entries))
    ensures Faithful(ReadBack(value), value)
  {
    if value.Table? && value.entries != [] {
      OneLevelReadBack(value.entries);
      OneLevelLeaves(value.entries);
      TableSurvives(value.entries, ReadBack(value).fields);
    }
  }

  lemma {:induction false} TableSurvives(entries: seq<Entry>, fields: map<string, string>)
    requires entries != [] && OneLevel(entries)
    requires forall i :: 0 <= i < |entries| ==>
               entries[i].key in fields && fields[entries[i].key] == entries[i].value.text
    requires forall k :: k in fields ==> exists i :: 0 <= i < |entries| && entries[i].key == k
    requires forall leaf :: leaf in EntryLeaves(entries)
               <==> exists i :: 0 <= i < |entries| && leaf == Word([Key(entries[i].key)], entries[i].value.text)
    ensures SubLeaves(SubTable(fields)) == EntryLeaves(entries)
  {
    assert entries[0].key in fields;
    forall leaf
      ensures leaf in SubLeaves(SubTable(fields)) <==> leaf in EntryLeaves(entries)
    {
      if leaf in SubLeaves(SubTable(fields)) {
        var k :| k in fields && leaf == Word([Key(k)], fields[k]);
        var i :| 0 <= i < |entries| && entries[i].key == k;
        assert leaf == Word([Key(entries[i].key)], entries[i].value.text);
      }
    }
  }

  // ----- No other value does -----

  /** Everything has a leaf; below a collection it is an empty one or at least one step down. */
  lemma {:induction false} SomeLeaf(value: Value) returns (leaf: Leaf)
    ensures leaf in Leaves(value) && (value.Scalar? || leaf.Hollow? || |leaf.path| >= 1)
    decreases value, 1
  {
    match value
    case Scalar(text) => leaf := Word([], text);
    case Table(entries) => leaf := SomeTableLeaf(entries);
    case Listing(items) =>
      if items == [] {
        leaf := Hollow([]);
      } else {
        leaf := FirstItemLeaf(items);
      }
  }

  lemma {:induction false} SomeTableLeaf(entries: seq<Entry>) returns (leaf: Leaf)
    ensures leaf in TableLeaves(entries) && (leaf.Hollow? || |leaf.path| >= 1)
    decreases entries, 1
  {
    if entries == [] {
      leaf := Hollow([]);
    } else {
      var inner := SomeLeaf(entries[0].value);
      leaf := Below(Key(entries[0].key), inner);
      assert leaf in Under(Key(entries[0].key), Leaves(entries[0].value));
    }
  }

  lemma {:induction false} FirstItemLeaf(items: seq<Item>) returns (leaf: Leaf)
    requires items != []
    ensures leaf in ItemLeaves(items, 0) && leaf.path != [] && leaf.path[0] == Index(0)
    decreases items, 2
  {
    var inner: Leaf;
    if items[0].Plain? {
      inner := Word([], items[0].text);
    } else {
      inner := SomeTableLeaf(items[0].entries);
    }
    leaf := Below(Index(0), inner);
    assert leaf in Under(Index(0), if items[0].Plain? then {Word([], items[0].text)}
                                   else TableLeaves(items[0].entries));
  }

  lemma {:induction false} EntryLeafIn(entries: seq<Entry>, i: nat, leaf: Leaf)
    requires i < |entries| && leaf in Leaves(entries[i].value)
    ensures Below(Key(entries[i].key), leaf) in EntryLeaves(entries)
  {
    if i > 0 {
      EntryLeafIn(entries[1..], i - 1, leaf);
    } else {
      assert Below(Key(entries[0].key), leaf) in Under(Key(entries[0].key), Leaves(entries[0].value));
    }
  }

  /** Parsed tables hold words one key down, or nothing. */
  lemma TableShape(fields: map<string, string>, leaf: Leaf)
    requires leaf in SubLeaves(SubTable(fields))
    ensures leaf == Hollow([]) || (leaf.Word? && |leaf.path| == 1 && leaf.path[0].Key?)
  {
  }

  lemma {:induction false} OthersDoNot(value: Value)
    requires !Flat(value)
    ensures !Faithful(ReadBack(value), value)
  {
    var fields := ReadBack(value).fields;
    var leaf: Leaf;
    if value.Listing? {
      leaf := FirstItemLeaf(value.items);
    } else {
      var i :| 0 <= i < |value.entries| && !value.entries[i].value.Scalar?;
      var inner := SomeLeaf(value.entries[i].value);
      EntryLeafIn(value.entries, i, inner);
      leaf := Below(Key(value.entries[i].key), inner);
    }
    assert leaf in Leaves(value);
    if leaf in SubLeaves(SubTable(fields)) {
      TableShape(fields, leaf);
    }
  }

  /** A statistic survives printing and reading if and only if it is a scalar, a dictionary of scalars or an empty
      list. */
  lemma {:induction false} FaithfulExactlyWhen(value: Value)
    requires value.Table? ==> DistinctKeys(value.entries)
    ensures Faithful(ReadBack(value), value) <==> Flat(value)
  {
    if Flat(value) {
      FlatSurvives(value);
    } else {
      OthersDoNot(value);
    }
  }

  /** A list of one item reads back like an empty list, and a nested dictionary like a flat one with an empty text. */
  lemma LostItems()
    ensures ReadBack(Listing([Plain("python")])) == ReadBack(Listing([])) == SubTable(map[])
    ensures ReadBack(Table([Entry("a", Table([Entry("b", Scalar("1"))]))])) == SubTable(map["a" := "", "b" := "1"])
  {
    NoColon("python");
    assert FlatItems([Plain("python")]) == FlatItem(Plain("python")) + FlatItems([]);
    var inner := [Entry("b", Scalar("1"))];
    assert FlatEntries(inner) == [Setting("b", "1")] + FlatEntries([]) == [Setting("b", "1")];
    var outer := [Entry("a", Table(inner))];
    assert outer[1..] == [];
    assert FlatEntries(outer) == [Setting("a", "")] + [Setting("b", "1")] + FlatEntries([]);
    assert FlatEntries(outer) == [Setting("a", ""), Setting("b", "1")];
    WrittenOne(map[], Setting("a", ""), [Setting("b", "1")]);
    assert [Setting("a", "")] + [Setting("b", "1")] == FlatEntries(outer);
    assert [Setting("b", "1")] + [] == [Setting("b", "1")];
    WrittenOne(map["a" := ""], Setting("b", "1"), []);
  }

  lemma NoColon(text: string)
    requires ':' !in text
    ensures FlatItem(Plain(text)) == []
  {
    assert forall i :: 0 <= i < |text| ==> text[i] in text;
  }
}
