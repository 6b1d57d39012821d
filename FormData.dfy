/** The plain object `data` that generatePrediction builds from the form's
    FormData entries, and the two ways the scoring rules read it: a strict
    comparison with a string literal and a conversion to string before
    parsing. */
module FormData {
  import opened Wrappers

  /** One FormData entry: a control's name and its submitted value. */
  datatype Entry = Entry(name: string, value: string)

  type Dict = map<string, string>

  /** The object obtained by assigning the entries to it one after the
      other (`data[key] = value`). */
  function Assigned(entries: seq<Entry>): Dict
  {
    if entries == [] then map[]
    else
      var last := entries[|entries| - 1];
      Assigned(entries[..|entries| - 1])[last.name := last.value]
  }

  /** Entry `i` is the last one with its name. */
  predicate IsLastOfName(entries: seq<Entry>, i: int)
    requires 0 <= i < |entries|
  {
    forall j :: i < j < |entries| ==> entries[j].name != entries[i].name
  }

  /** The object holds exactly the names of the entries, and under each
      name the value of the last entry that carries it. */
  lemma {:induction false} AssignedLastWins(entries: seq<Entry>)
    ensures forall k :: k in Assigned(entries) <==> exists i :: 0 <= i < |entries| && entries[i].name == k
    ensures forall i :: 0 <= i < |entries| && IsLastOfName(entries, i) ==>
              Assigned(entries)[entries[i].name] == entries[i].value
  {
    if entries != [] {
      var n := |entries| - 1;
      var init := entries[..n];
      AssignedLastWins(init);
      forall k ensures k in Assigned(entries) <==> exists i :: 0 <= i < |entries| && entries[i].name == k {
        if k in Assigned(init) {
          var i :| 0 <= i < |init| && init[i].name == k;
          assert entries[i].name == k;
        }
        if exists i :: 0 <= i < |entries| && entries[i].name == k {
          var i :| 0 <= i < |entries| && entries[i].name == k;
          if i < n {
            assert init[i].name == k;
          }
        }
      }
      forall i | 0 <= i < |entries| && IsLastOfName(entries, i)
        ensures Assigned(entries)[entries[i].name] == entries[i].value
      {
        if i < n {
          assert entries[n].name != entries[i].name;
          assert init[i] == entries[i];
          assert IsLastOfName(init, i);
        }
      }
    }
  }

  /** The loop at the head of generatePrediction: every entry is copied
      into a fresh object, a later entry overwriting an earlier one of the
      same name. */
  method CollectEntries(entries: seq<Entry>) returns (data: Dict)
    ensures data == Assigned(entries)
    ensures forall k :: k in data <==> exists i :: 0 <= i < |entries| && entries[i].name == k
    ensures forall i :: 0 <= i < |entries| && IsLastOfName(entries, i) ==>
              data[entries[i].name] == entries[i].value
  {
    data := map[];
    for i := 0 to |entries|
      invariant data == Assigned(entries[..i])
    {
      assert entries[..i + 1][..i] == entries[..i];
      data := data[entries[i].name := entries[i].value];
    }
    assert entries[..|entries|] == entries;
    AssignedLastWins(entries);
  }

  /** `data[key] === literal`: false when the key is missing, since
      undefined is strictly equal to no string. */
  predicate Is(data: Dict, key: string, literal: string) {
    key in data && data[key] == literal
  }

  /** The property read as an optional value. */
  function Get(data: Dict, key: string): Option<string> {
    if key in data then Some(data[key]) else None
  }

  /** The string a parser sees: a missing property is undefined, which
      converts to the string "undefined". */
  function AsString(v: Option<string>): string {
    match v
    case Some(s) => s
    case None => "undefined"
  }
}
