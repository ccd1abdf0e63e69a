/** The result record of one benchmark run and the table of test types
    (`model/Results.kt`). */
module Model {
  import opened Runtime

  /** The four synchronization strategies under test, in declaration order. */
  datatype TestType = Null | Synchronized | DoubleChecked | Spin
  {
    /** The stable numeric id (the enum's `type` property). It is the
        position of the type in declaration order. */
    function Id(): (r: int)
      ensures 0 <= r < |AllTypes| && AllTypes[r] == this
    {
      match this
      case Null => 0
      case Synchronized => 1
      case DoubleChecked => 2
      case Spin => 3
    }

    /** The name shown to the user (the enum's `displayName` property). */
    function DisplayName(): string
    {
      match this
      case Null => "Null"
      case Synchronized => "Synchronized"
      case DoubleChecked => "Double Checked"
      case Spin => "Spin"
    }
  }

  /** `TestType.values()`: every type, in declaration order. */
  const AllTypes: seq<TestType> := [Null, Synchronized, DoubleChecked, Spin]

  /** The test type with the given id, if there is one. */
  function TypeOfId(id: int): (r: Option<TestType>)
    ensures r.Some? <==> 0 <= id < |AllTypes|
    ensures r.Some? ==> r.value.Id() == id
  {
    if 0 <= id < |AllTypes| then Some(AllTypes[id]) else None
  }

  /** The keys of a list of pairs. */
  ghost function Firsts<K, V>(ps: seq<(K, V)>): set<K>
  {
    set i | 0 <= i < |ps| :: ps[i].0
  }

  lemma FirstsOfSnoc<K, V>(ps: seq<(K, V)>)
    requires ps != []
    ensures Firsts(ps) == Firsts(ps[..|ps| - 1]) + {ps[|ps| - 1].0}
  {
  }

  /** Kotlin's `Iterable<Pair<K, V>>.toMap()`: pairs are put in order, so a
      later pair overrides an earlier one with the same key. */
  function ToMap<K, V>(ps: seq<(K, V)>): (m: map<K, V>)
    ensures m.Keys == Firsts(ps)
    ensures forall i | 0 <= i < |ps| ::
              (forall j | i < j < |ps| :: ps[j].0 != ps[i].0) ==> m[ps[i].0] == ps[i].1
  {
    if ps == [] then map[]
    else
      var n := |ps| - 1;
      var front := ps[..n];
      var m' := ToMap(front);
      FirstsOfSnoc(ps);
      assert forall i | 0 <= i < n :: front[i] == ps[i];
      m'[ps[n].0 := ps[n].1]
  }

  /** `TestType.values().map { it.type to it.displayName }`. */
  function IdNamePairs(): (ps: seq<(int, string)>)
    ensures |ps| == |AllTypes|
    ensures forall i | 0 <= i < |ps| :: ps[i].0 == i
    ensures forall t: TestType :: ps[t.Id()].1 == t.DisplayName()
  {
    seq(|AllTypes|, i requires 0 <= i < |AllTypes| => (AllTypes[i].Id(), AllTypes[i].DisplayName()))
  }

  /** The id-to-name table the results list uses to label each record. */
  function TestTypeToName(): map<int, string>
  {
    ToMap(IdNamePairs())
  }

  /** The table is defined on exactly the four ids and names each id by its
      type's display name. */
  lemma TestTypeToNameNamesEachType()
    ensures TestTypeToName().Keys == {0, 1, 2, 3}
    ensures forall t: TestType :: t.Id() in TestTypeToName() && TestTypeToName()[t.Id()] == t.DisplayName()
  {
    var ps := IdNamePairs();
    IdsAreTheKeys(ps);
    forall t: TestType
      ensures TestTypeToName()[t.Id()] == t.DisplayName()
    {
      assert ps[t.Id()].0 == t.Id();
    }
  }

  lemma IdsAreTheKeys(ps: seq<(int, string)>)
    requires |ps| == 4 && forall i | 0 <= i < |ps| :: ps[i].0 == i
    ensures Firsts(ps) == {0, 1, 2, 3}
  {
    assert ps[0].0 == 0 && ps[1].0 == 1 && ps[2].0 == 2 && ps[3].0 == 3;
  }

  /** Written out, the table is the literal map of ids to names. */
  lemma TestTypeToNameIsTheTypeTable()
    ensures TestTypeToName() == map[0 := "Null", 1 := "Synchronized", 2 := "Double Checked", 3 := "Spin"]
  {
    TestTypeToNameNamesEachType();
    var m := TestTypeToName();
    assert m[Null.Id()] == "Null";
    assert m[Synchronized.Id()] == "Synchronized";
    assert m[DoubleChecked.Id()] == "Double Checked";
    assert m[Spin.Id()] == "Spin";
  }

  /** One stored measurement (a row of the timings table). All fields are
      immutable; `testType` is the source's `type` column. */
  datatype Results = Results(ts: int, testType: int, nThreads: int, tRead: int, tWrite: int)
  {
    /** The table's primary key, `(type, ts)`. */
    function Key(): (int, int)
    {
      (testType, ts)
    }
  }
}
