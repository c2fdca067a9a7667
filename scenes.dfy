/**
 * The scene table of scenes.c: 37 (id, name) pairs ordered by id, looked
 * up by id or by name with a linear scan.
 */
module Scenes {
  import opened Wrappers
  import opened Cwiz
  import opened CText

  /** A scene: its id and its NUL-terminated name. */
  datatype Scene = Scene(id: U16, name: CString)

  /** The static table, in source order. */
  const Table: seq<Scene> := [
    Scene(1, "Ocean"), Scene(2, "Romance"), Scene(3, "Sunset"),
    Scene(4, "Party"), Scene(5, "Fireplace"), Scene(6, "Cozy"),
    Scene(7, "Forest"), Scene(8, "Pastel colors"), Scene(9, "Wake-up"),
    Scene(10, "Bedtime"), Scene(11, "Warm white"), Scene(12, "Daylight"),
    Scene(13, "Cool white"), Scene(14, "Night light"), Scene(15, "Focus"),
    Scene(16, "Relax"), Scene(17, "True colors"), Scene(18, "TV time"),
    Scene(19, "Plantgrowth"), Scene(20, "Spring"), Scene(21, "Summer"),
    Scene(22, "Fall"), Scene(23, "Deep dive"), Scene(24, "Jungle"),
    Scene(25, "Mojito"), Scene(26, "Club"), Scene(27, "Christmas"),
    Scene(28, "Halloween"), Scene(29, "Candlelight"), Scene(30, "Golden white"),
    Scene(31, "Pulse"), Scene(32, "Steampunk"), Scene(33, "Diwali"),
    Scene(34, "White"), Scene(35, "Alarm"), Scene(36, "Snowy sky"),
    Scene(1000, "Rhythm")]

  const SceneCount := 37

  predicate IdsIncreasing(t: seq<Scene>)
  {
    forall i, j :: 0 <= i < j < |t| ==> t[i].id < t[j].id
  }

  predicate NamesDistinct(t: seq<Scene>)
  {
    forall i, j :: 0 <= i < j < |t| ==> t[i].name != t[j].name
  }

  lemma TableIdsIncreasing()
    ensures IdsIncreasing(Table)
  {
    assert forall k :: 0 <= k < 36 ==> Table[k].id < Table[k + 1].id;
    AdjacentIncreasing(Table);
  }

  lemma {:induction false} AdjacentIncreasing(t: seq<Scene>)
    requires forall k :: 0 <= k < |t| - 1 ==> t[k].id < t[k + 1].id
    ensures IdsIncreasing(t)
  {
    if |t| > 1 {
      var rest := t[1..];
      AdjacentIncreasing(rest);
      forall i, j | 0 <= i < j < |t|
        ensures t[i].id < t[j].id
      {
        if i > 0 {
          assert t[i] == rest[i - 1] && t[j] == rest[j - 1];
        } else if j > 1 {
          assert t[1] == rest[0] && t[j] == rest[j - 1];
        }
      }
    }
  }

  /** Row k's name differs from every later row's. */
  predicate RowUnique(t: seq<Scene>, k: nat)
  {
    forall j :: k < j < |t| ==> t[k].name != t[j].name
  }

  /** Every row from k on is unique. */
  predicate RowsUniqueFrom(t: seq<Scene>, k: nat)
    decreases |t| - k
  {
    k >= |t| || (RowUnique(t, k) && RowsUniqueFrom(t, k + 1))
  }

  lemma ChainRow(t: seq<Scene>, k: nat)
    requires RowUnique(t, k) && RowsUniqueFrom(t, k + 1)
    ensures RowsUniqueFrom(t, k)
  {
  }

  lemma {:induction false} RowsUnique(t: seq<Scene>, k: nat)
    requires RowsUniqueFrom(t, k)
    ensures forall i, j :: k <= i < j < |t| ==> t[i].name != t[j].name
    decreases |t| - k
  {
    if k < |t| {
      RowsUnique(t, k + 1);
      assert RowUnique(t, k);
    }
  }

  lemma LastRows(t: seq<Scene>)
    requires |t| == 37
    ensures RowsUniqueFrom(t, 36)
  {
    assert RowsUniqueFrom(t, 37);
  }

  // The names are told apart one row at a time: lemma NameUniqueK compares row K with every later row.
  // The 666 string comparisons of the table are too many for one proof obligation, so each row gets a
  // lemma of its own and the RowsFrom lemmas below chain the rows in small groups.

  lemma NameUnique0()
    ensures RowUnique(Table, 0)
  {
  }

  lemma NameUnique1()
    ensures RowUnique(Table, 1)
  {
  }

  lemma NameUnique2()
    ensures RowUnique(Table, 2)
  {
  }

  lemma NameUnique3()
    ensures RowUnique(Table, 3)
  {
  }

  lemma NameUnique4()
    ensures RowUnique(Table, 4)
  {
  }

  lemma NameUnique5()
    ensures RowUnique(Table, 5)
  {
  }

  lemma NameUnique6()
    ensures RowUnique(Table, 6)
  {
  }

  lemma NameUnique7()
    ensures RowUnique(Table, 7)
  {
  }

  lemma NameUnique8()
    ensures RowUnique(Table, 8)
  {
  }

  lemma NameUnique9()
    ensures RowUnique(Table, 9)
  {
  }

  lemma NameUnique10()
    ensures RowUnique(Table, 10)
  {
  }

  lemma NameUnique11()
    ensures RowUnique(Table, 11)
  {
  }

  lemma NameUnique12()
    ensures RowUnique(Table, 12)
  {
  }

  lemma NameUnique13()
    ensures RowUnique(Table, 13)
  {
  }

  lemma NameUnique14()
    ensures RowUnique(Table, 14)
  {
  }

  lemma NameUnique15()
    ensures RowUnique(Table, 15)
  {
  }

  lemma NameUnique16()
    ensures RowUnique(Table, 16)
  {
  }

  lemma NameUnique17()
    ensures RowUnique(Table, 17)
  {
  }

  lemma NameUnique18()
    ensures RowUnique(Table, 18)
  {
  }

  lemma NameUnique19()
    ensures RowUnique(Table, 19)
  {
  }

  lemma NameUnique20()
    ensures RowUnique(Table, 20)
  {
  }

  lemma NameUnique21()
    ensures RowUnique(Table, 21)
  {
  }

  lemma NameUnique22()
    ensures RowUnique(Table, 22)
  {
  }

  lemma NameUnique23()
    ensures RowUnique(Table, 23)
  {
  }

  lemma NameUnique24()
    ensures RowUnique(Table, 24)
  {
  }

  lemma NameUnique25()
    ensures RowUnique(Table, 25)
  {
  }

  lemma NameUnique26()
    ensures RowUnique(Table, 26)
  {
  }

  lemma NameUnique27()
    ensures RowUnique(Table, 27)
  {
  }

  lemma NameUnique28()
    ensures RowUnique(Table, 28)
  {
  }

  lemma NameUnique29()
    ensures RowUnique(Table, 29)
  {
  }

  lemma NameUnique30()
    ensures RowUnique(Table, 30)
  {
  }

  lemma NameUnique31()
    ensures RowUnique(Table, 31)
  {
  }

  lemma NameUnique32()
    ensures RowUnique(Table, 32)
  {
  }

  lemma NameUnique33()
    ensures RowUnique(Table, 33)
  {
  }

  lemma NameUnique34()
    ensures RowUnique(Table, 34)
  {
  }

  lemma NameUnique35()
    ensures RowUnique(Table, 35)
  {
  }

  lemma RowsFrom27()
    ensures RowsUniqueFrom(Table, 27)
  {
    NameUnique27();
    NameUnique28();
    NameUnique29();
    NameUnique30();
    NameUnique31();
    NameUnique32();
    NameUnique33();
    NameUnique34();
    NameUnique35();
    LastRows(Table);
    ChainRow(Table, 35);
    ChainRow(Table, 34);
    ChainRow(Table, 33);
    ChainRow(Table, 32);
    ChainRow(Table, 31);
    ChainRow(Table, 30);
    ChainRow(Table, 29);
    ChainRow(Table, 28);
    ChainRow(Table, 27);
  }

  lemma RowsFrom18()
    ensures RowsUniqueFrom(Table, 18)
  {
    NameUnique18();
    NameUnique19();
    NameUnique20();
    NameUnique21();
    NameUnique22();
    NameUnique23();
    NameUnique24();
    NameUnique25();
    NameUnique26();
    RowsFrom27();
    ChainRow(Table, 26);
    ChainRow(Table, 25);
    ChainRow(Table, 24);
    ChainRow(Table, 23);
    ChainRow(Table, 22);
    ChainRow(Table, 21);
    ChainRow(Table, 20);
    ChainRow(Table, 19);
    ChainRow(Table, 18);
  }

  lemma RowsFrom12()
    ensures RowsUniqueFrom(Table, 12)
  {
    NameUnique12();
    NameUnique13();
    NameUnique14();
    NameUnique15();
    NameUnique16();
    NameUnique17();
    RowsFrom18();
    ChainRow(Table, 17);
    ChainRow(Table, 16);
    ChainRow(Table, 15);
    ChainRow(Table, 14);
    ChainRow(Table, 13);
    ChainRow(Table, 12);
  }

  lemma RowsFrom6()
    ensures RowsUniqueFrom(Table, 6)
  {
    NameUnique6();
    NameUnique7();
    NameUnique8();
    NameUnique9();
    NameUnique10();
    NameUnique11();
    RowsFrom12();
    ChainRow(Table, 11);
    ChainRow(Table, 10);
    ChainRow(Table, 9);
    ChainRow(Table, 8);
    ChainRow(Table, 7);
    ChainRow(Table, 6);
  }

  lemma RowsFrom3()
    ensures RowsUniqueFrom(Table, 3)
  {
    NameUnique3();
    NameUnique4();
    NameUnique5();
    RowsFrom6();
    ChainRow(Table, 5);
    ChainRow(Table, 4);
    ChainRow(Table, 3);
  }

  lemma RowsFrom0()
    ensures RowsUniqueFrom(Table, 0)
  {
    NameUnique0();
    NameUnique1();
    NameUnique2();
    RowsFrom3();
    ChainRow(Table, 2);
    ChainRow(Table, 1);
    ChainRow(Table, 0);
  }

  /** No two entries share a name. */
  lemma TableNamesDistinct()
    ensures NamesDistinct(Table)
  {
    RowsFrom0();
    RowsUnique(Table, 0);
  }


  // ------------------------------------------------------------- lookups

  /** The first position at or after i whose id is id. */
  function FindId(t: seq<Scene>, id: U16, i: nat): (r: Option<nat>)
    decreases |t| - i
    ensures r.Some? ==> i <= r.value < |t| && t[r.value].id == id &&
                        forall k :: i <= k < r.value ==> t[k].id != id
    ensures r.None? ==> forall k :: i <= k < |t| ==> t[k].id != id
  {
    if i >= |t| then None
    else if t[i].id == id then Some(i)
    else FindId(t, id, i + 1)
  }

  /** The first position at or after i whose name is name (strcmp == 0). */
  function FindName(t: seq<Scene>, name: string, i: nat): (r: Option<nat>)
    decreases |t| - i
    ensures r.Some? ==> i <= r.value < |t| && t[r.value].name == name &&
                        forall k :: i <= k < r.value ==> t[k].name != name
    ensures r.None? ==> forall k :: i <= k < |t| ==> t[k].name != name
  {
    if i >= |t| then None
    else if t[i].name == name then Some(i)
    else FindName(t, name, i + 1)
  }

  /** The name of a scene id: the first entry with that id, NULL (None) when there is none. */
  function SceneName(id: U16): Option<CString>
  {
    match FindId(Table, id, 0)
    case Some(k) => Some(Table[k].name)
    case None => None
  }

  /** The id of a scene name: the first exact match, 0 for an unknown or NULL name. */
  function SceneId(name: Option<CString>): U16
  {
    if name.None? then 0
    else match FindName(Table, name.value, 0)
      case Some(k) => Table[k].id
      case None => 0
  }

  /** The for loop of wiz_get_scene_name over a table. */
  method ScanIds(t: seq<Scene>, id: U16) returns (r: Option<nat>)
    ensures r == FindId(t, id, 0)
  {
    for i := 0 to |t|
      invariant FindId(t, id, 0) == FindId(t, id, i)
    {
      if t[i].id == id {
        return Some(i);
      }
    }
    return None;
  }

  /** The for loop of wiz_get_scene_id over a table. */
  method ScanNames(t: seq<Scene>, name: CString) returns (r: Option<nat>)
    ensures r == FindName(t, name, 0)
  {
    for i := 0 to |t|
      invariant FindName(t, name, 0) == FindName(t, name, i)
    {
      if t[i].name == name {
        return Some(i);
      }
    }
    return None;
  }

  /** wiz_get_scene_name. */
  method GetSceneName(id: U16) returns (name: Option<CString>)
    ensures name == SceneName(id)
  {
    var k := ScanIds(Table, id);
    if k.Some? {
      return Some(Table[k.value].name);
    }
    return None;
  }

  /** wiz_get_scene_id: 0 for a NULL name. */
  method GetSceneId(name: Option<CString>) returns (id: U16)
    ensures id == SceneId(name)
  {
    if name.None? {
      return 0;
    }
    var k := ScanNames(Table, name.value);
    if k.Some? {
      return Table[k.value].id;
    }
    return 0;
  }

  /** wiz_get_all_scenes: the table, with 37 written into a non-NULL count. */
  function AllScenes(count: Option<int>): (r: (Option<int>, seq<Scene>))
    ensures r.1 == Table && |r.1| == SceneCount
    ensures count.None? <==> r.0.None?
    ensures count.Some? ==> r.0 == Some(SceneCount)
  {
    (if count.None? then None else Some(SceneCount), Table)
  }

  // ---------------------------------------------------------- properties

  /** Each table id is found at its own position, since ids never repeat. */
  lemma FindIdOfEntry(k: nat)
    requires k < |Table|
    ensures FindId(Table, Table[k].id, 0) == Some(k)
  {
    TableIdsIncreasing();
    var r := FindId(Table, Table[k].id, 0);
    assert r.Some?;
  }

  /** Each table name is found at its own position, since names never repeat. */
  lemma FindNameOfEntry(k: nat)
    requires k < |Table|
    ensures FindName(Table, Table[k].name, 0) == Some(k)
  {
    TableNamesDistinct();
    var r := FindName(Table, Table[k].name, 0);
    assert r.Some?;
  }

  /** For every table entry, the name of its id is its name... */
  lemma NameOfEntry(k: nat)
    requires k < |Table|
    ensures SceneName(Table[k].id) == Some(Table[k].name)
  {
    FindIdOfEntry(k);
  }

  /** ...and the id of its name is its id. */
  lemma IdOfEntry(k: nat)
    requires k < |Table|
    ensures SceneId(Some(Table[k].name)) == Table[k].id
  {
    FindNameOfEntry(k);
  }

  /** get_scene_id(get_scene_name(id)) == id for every id that has a name. */
  lemma NameIdRoundTrip(id: U16)
    requires SceneName(id).Some?
    ensures SceneId(SceneName(id)) == id
  {
    var k := FindId(Table, id, 0).value;
    assert SceneName(id) == Some(Table[k].name);
    IdOfEntry(k);
  }

  /** Every table id is at least 1, so 0 never names a scene. */
  lemma IdsPositive()
    ensures forall k :: 0 <= k < |Table| ==> Table[k].id >= 1
  {
    TableIdsIncreasing();
  }

  /** A NULL result means the id is not in the table. */
  lemma SceneNameNone(id: U16)
    ensures SceneName(id).None? <==> forall k :: 0 <= k < |Table| ==> Table[k].id != id
  {
  }

  /** 0 comes back exactly for a NULL name or a name no entry has. */
  lemma SceneIdZero(name: Option<CString>)
    ensures SceneId(name) == 0 <==> name.None? || forall k :: 0 <= k < |Table| ==> Table[k].name != name.value
  {
    IdsPositive();
  }

  /** Ids 37..999 have no scene: the table jumps from 36 to 1000. */
  lemma GapHasNoScene(id: U16)
    requires 36 < id < 1000
    ensures SceneName(id) == None
  {
    TableIdsIncreasing();
    assert Table[35].id == 36 && Table[36].id == 1000;
  }

  /** Every name starts with a capital letter. */
  lemma NamesCapitalized()
    ensures forall k :: 0 <= k < |Table| ==> |Table[k].name| > 0 && 'A' <= Table[k].name[0] <= 'Z'
  {
    CapitalizedLow();
    CapitalizedHigh();
  }

  lemma CapitalizedLow()
    ensures forall k :: 0 <= k < 18 ==> |Table[k].name| > 0 && 'A' <= Table[k].name[0] <= 'Z'
  {
  }

  lemma CapitalizedHigh()
    ensures forall k :: 18 <= k < 37 ==> |Table[k].name| > 0 && 'A' <= Table[k].name[0] <= 'Z'
  {
  }

  /** Matching is exact: "ocean" is not "Ocean". */
  lemma CaseSensitive(name: CString)
    requires name == "ocean"
    ensures SceneId(Some(name)) == 0
  {
    NamesCapitalized();
    SceneIdZero(Some(name));
  }

  /** The last entry: 1000 is "Rhythm" and back. */
  lemma RhythmExample()
    ensures SceneName(1000) == Some("Rhythm")
    ensures SceneId(Some("Rhythm")) == 1000
  {
    NameOfEntry(36);
    IdOfEntry(36);
  }
}
