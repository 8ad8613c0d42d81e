/**
 * The model-file store: a list of model-file records, each with its own
 * viewer configuration, and the id of the selected record. Two default
 * records shipped with the application can never be removed; user files are
 * appended and selected, removed by id, and the selected record's
 * configuration is updated by merging partial records into it.
 */
module ModelStore {
  import opened Wrappers

  datatype Triple = Triple(x: real, y: real, z: real)

  datatype ModelTransform = ModelTransform(position: Triple, rotation: Triple, scale: real)

  datatype ModelConfig = ModelConfig(autoRotate: bool, rotateSpeed: real, transform: ModelTransform, backgroundColor: string)

  /** `isDefault` marks the shipped files, which cannot be deleted. */
  datatype ModelFile = ModelFile(id: string, name: string, url: string, isDefault: bool,
                                 config: ModelConfig, scaleMultiplier: real)

  /** `Partial<ModelConfig>`: `None` is a key that is absent. */
  datatype ConfigPatch = ConfigPatch(autoRotate: Option<bool>, rotateSpeed: Option<real>,
                                     transform: Option<ModelTransform>, backgroundColor: Option<string>)

  /** `Partial<ModelTransform>`. */
  datatype TransformPatch = TransformPatch(position: Option<Triple>, rotation: Option<Triple>, scale: Option<real>)

  const DefaultConfig := ModelConfig(true, 2.0, ModelTransform(Triple(0.0, 0.0, 0.0), Triple(-90.0, 0.0, 0.0), 1.0), "#0a0a14")

  const DefaultRing1 := "default-ring-1"
  const DefaultRing2 := "default-ring-2"

  /** The two shipped rings; the second is rotated differently and drawn at a tenth of the scale. */
  const DefaultFiles: seq<ModelFile> := [
    ModelFile(DefaultRing1, "doji_diamond_ring.glb", "/models/doji_diamond_ring.glb", true, DefaultConfig, 1.0),
    ModelFile(DefaultRing2, "jewelery_ring_diamonds.glb", "/models/jewelery_ring_diamonds.glb", true,
              DefaultConfig.(transform := ModelTransform(Triple(0.0, 0.0, 0.0), Triple(-90.0, 55.0, 55.0), 1.0)), 0.1)
  ]

  // ---------------------------------------------------------------- merging

  /** The value of one key of an object spread: the patch's value when the key is present. */
  function Pick<T>(patch: Option<T>, current: T): T {
    if patch.Some? then patch.value else current
  }

  /** `{ ...config, ...patch }`. */
  function MergeConfig(c: ModelConfig, p: ConfigPatch): ModelConfig {
    ModelConfig(Pick(p.autoRotate, c.autoRotate), Pick(p.rotateSpeed, c.rotateSpeed),
                Pick(p.transform, c.transform), Pick(p.backgroundColor, c.backgroundColor))
  }

  /** `{ ...transform, ...patch }`. */
  function MergeTransform(t: ModelTransform, p: TransformPatch): ModelTransform {
    ModelTransform(Pick(p.position, t.position), Pick(p.rotation, t.rotation), Pick(p.scale, t.scale))
  }

  /** Keys present in the patch take its value; absent keys keep the old one. */
  lemma MergeConfigFields(c: ModelConfig, p: ConfigPatch)
    ensures p.autoRotate.None? ==> MergeConfig(c, p).autoRotate == c.autoRotate
    ensures p.autoRotate.Some? ==> MergeConfig(c, p).autoRotate == p.autoRotate.value
    ensures p.rotateSpeed.None? ==> MergeConfig(c, p).rotateSpeed == c.rotateSpeed
    ensures p.rotateSpeed.Some? ==> MergeConfig(c, p).rotateSpeed == p.rotateSpeed.value
    ensures p.transform.None? ==> MergeConfig(c, p).transform == c.transform
    ensures p.transform.Some? ==> MergeConfig(c, p).transform == p.transform.value
    ensures p.backgroundColor.None? ==> MergeConfig(c, p).backgroundColor == c.backgroundColor
    ensures p.backgroundColor.Some? ==> MergeConfig(c, p).backgroundColor == p.backgroundColor.value
  {
  }

  lemma MergeTransformFields(t: ModelTransform, p: TransformPatch)
    ensures p.position.None? ==> MergeTransform(t, p).position == t.position
    ensures p.position.Some? ==> MergeTransform(t, p).position == p.position.value
    ensures p.rotation.None? ==> MergeTransform(t, p).rotation == t.rotation
    ensures p.rotation.Some? ==> MergeTransform(t, p).rotation == p.rotation.value
    ensures p.scale.None? ==> MergeTransform(t, p).scale == t.scale
    ensures p.scale.Some? ==> MergeTransform(t, p).scale == p.scale.value
  {
  }

  /** Merging an empty patch changes nothing, and merging the same patch twice is merging it once. */
  lemma MergeConfigIdentityIdempotent(c: ModelConfig, p: ConfigPatch)
    ensures MergeConfig(c, ConfigPatch(None, None, None, None)) == c
    ensures MergeConfig(MergeConfig(c, p), p) == MergeConfig(c, p)
  {
  }

  lemma MergeTransformIdentityIdempotent(t: ModelTransform, p: TransformPatch)
    ensures MergeTransform(t, TransformPatch(None, None, None)) == t
    ensures MergeTransform(MergeTransform(t, p), p) == MergeTransform(t, p)
  {
  }

  /** A later patch overrides an earlier one key by key. */
  lemma MergeConfigLaterWins(c: ModelConfig, p: ConfigPatch, q: ConfigPatch)
    ensures q.autoRotate.Some? ==> MergeConfig(MergeConfig(c, p), q).autoRotate == q.autoRotate.value
    ensures q.autoRotate.None? ==> MergeConfig(MergeConfig(c, p), q).autoRotate == MergeConfig(c, p).autoRotate
    ensures q.transform.Some? ==> MergeConfig(MergeConfig(c, p), q).transform == q.transform.value
    ensures q.transform.None? ==> MergeConfig(MergeConfig(c, p), q).transform == MergeConfig(c, p).transform
  {
  }

  // ------------------------------------------------------------- lookups

  /** `files.findIndex(f => f.id === id)`: the first record with that id. */
  function IndexOf(files: seq<ModelFile>, id: string): (r: Option<nat>)
    ensures r.Some? ==> r.value < |files| && files[r.value].id == id &&
                        forall j :: 0 <= j < r.value ==> files[j].id != id
    ensures r.None? <==> forall j :: 0 <= j < |files| ==> files[j].id != id
  {
    if files == [] then None
    else if files[0].id == id then Some(0)
    else
      match IndexOf(files[1..], id)
      case None => None
      case Some(i) => Some(i + 1)
  }

  /** `files.find(f => f.id === id)`. */
  function FindFirst(files: seq<ModelFile>, id: string): (r: Option<ModelFile>)
    ensures r.Some? ==> r.value in files && r.value.id == id
    ensures r.None? <==> forall j :: 0 <= j < |files| ==> files[j].id != id
  {
    match IndexOf(files, id)
    case None => None
    case Some(i) => Some(files[i])
  }

  /** `files.find(f => f.id === selectedFileId)?.config || null`. */
  function SelectedConfig(files: seq<ModelFile>, selected: Option<string>): Option<ModelConfig> {
    if selected.None? then None
    else
      match FindFirst(files, selected.value)
      case None => None
      case Some(f) => Some(f.config)
  }

  /** The selection holds the config of the first record with the selected id, and nothing without one. */
  lemma SelectedConfigSpec(files: seq<ModelFile>, selected: Option<string>)
    ensures selected.None? ==> SelectedConfig(files, selected).None?
    ensures selected.Some? ==>
              (SelectedConfig(files, selected).None? <==> forall j :: 0 <= j < |files| ==> files[j].id != selected.value)
    ensures SelectedConfig(files, selected).Some? ==>
              exists i :: 0 <= i < |files| && files[i].id == selected.value &&
                          SelectedConfig(files, selected).value == files[i].config &&
                          forall j :: 0 <= j < i ==> files[j].id != selected.value
  {
    if selected.Some? && IndexOf(files, selected.value).Some? {
      var i := IndexOf(files, selected.value).value;
      assert files[i].id == selected.value;
    }
  }

  /** A selection that no record carries yields no config. */
  lemma DanglingSelection(files: seq<ModelFile>, id: string)
    requires forall f :: f in files ==> f.id != id
    ensures SelectedConfig(files, Some(id)) == None
  {
    assert forall j :: 0 <= j < |files| ==> files[j] in files;
  }

  // ------------------------------------------------------------- removal

  /** `files.filter(f => f.id !== id)`. */
  function RemoveById(files: seq<ModelFile>, id: string): (r: seq<ModelFile>)
    ensures |r| <= |files|
    ensures forall f :: f in r <==> f in files && f.id != id
  {
    if files == [] then []
    else if files[0].id == id then RemoveById(files[1..], id)
    else [files[0]] + RemoveById(files[1..], id)
  }

  /** Filtering works record by record, so it keeps the records in their original order. */
  lemma {:induction false} RemoveByIdAppend(a: seq<ModelFile>, b: seq<ModelFile>, id: string)
    ensures RemoveById(a + b, id) == RemoveById(a, id) + RemoveById(b, id)
    decreases |a|
  {
    if a == [] {
      assert a + b == b;
    } else {
      assert (a + b)[1..] == a[1..] + b;
      RemoveByIdAppend(a[1..], b, id);
    }
  }

  /** Without a record carrying the id, nothing is removed. */
  lemma {:induction false} RemoveByIdAbsent(files: seq<ModelFile>, id: string)
    requires forall j :: 0 <= j < |files| ==> files[j].id != id
    ensures RemoveById(files, id) == files
    decreases |files|
  {
    if files != [] {
      RemoveByIdAbsent(files[1..], id);
    }
  }

  /** Removing a second time removes nothing more. */
  lemma RemoveByIdIdempotent(files: seq<ModelFile>, id: string)
    ensures RemoveById(RemoveById(files, id), id) == RemoveById(files, id)
  {
    var r := RemoveById(files, id);
    forall j | 0 <= j < |r|
      ensures r[j].id != id
    {
      assert r[j] in r;
    }
    RemoveByIdAbsent(r, id);
  }

  // ------------------------------------------------------------- updates

  /** `files.map(file => file.id === id ? { ...file, config: { ...file.config, ...patch } } : file)`. */
  function UpdateConfig(files: seq<ModelFile>, id: string, patch: ConfigPatch): (r: seq<ModelFile>)
    ensures |r| == |files|
    ensures forall i :: 0 <= i < |files| && files[i].id != id ==> r[i] == files[i]
    ensures forall i :: 0 <= i < |files| && files[i].id == id ==>
              r[i] == files[i].(config := MergeConfig(files[i].config, patch))
  {
    seq(|files|, i requires 0 <= i < |files| =>
      if files[i].id == id then files[i].(config := MergeConfig(files[i].config, patch)) else files[i])
  }

  /** The same map, merging into `config.transform` only. */
  function UpdateTransform(files: seq<ModelFile>, id: string, patch: TransformPatch): (r: seq<ModelFile>)
    ensures |r| == |files|
    ensures forall i :: 0 <= i < |files| && files[i].id != id ==> r[i] == files[i]
    ensures forall i :: 0 <= i < |files| && files[i].id == id ==>
              r[i] == files[i].(config := files[i].config.(transform := MergeTransform(files[i].config.transform, patch)))
  {
    seq(|files|, i requires 0 <= i < |files| =>
      if files[i].id == id
      then files[i].(config := files[i].config.(transform := MergeTransform(files[i].config.transform, patch)))
      else files[i])
  }

  /**
   * A transform patch leaves autoRotate, rotateSpeed and backgroundColor of
   * every record alone, and every field of a record but its config.
   */
  lemma UpdateTransformKeepsRest(files: seq<ModelFile>, id: string, patch: TransformPatch, i: int)
    requires 0 <= i < |files|
    ensures var g := UpdateTransform(files, id, patch)[i];
            g.id == files[i].id && g.name == files[i].name && g.url == files[i].url &&
            g.isDefault == files[i].isDefault && g.scaleMultiplier == files[i].scaleMultiplier &&
            g.config.autoRotate == files[i].config.autoRotate &&
            g.config.rotateSpeed == files[i].config.rotateSpeed &&
            g.config.backgroundColor == files[i].config.backgroundColor
  {
  }

  /** A transform patch is a config patch that replaces the whole merged transform. */
  lemma UpdateTransformIsConfigPatch(files: seq<ModelFile>, id: string, patch: TransformPatch, i: int)
    requires 0 <= i < |files| && files[i].id == id
    ensures UpdateTransform(files, id, patch)[i] ==
            UpdateConfig(files, id, ConfigPatch(None, None, Some(MergeTransform(files[i].config.transform, patch)), None))[i]
  {
  }

  // ------------------------------------------------------------- new ids

  function Digit(d: nat): char
    requires d < 10
  {
    "0123456789"[d]
  }

  /** The decimal digits of `n`, as a template literal renders a timestamp. */
  function NatToString(n: nat): (s: string)
    ensures |s| >= 1
    ensures n >= 10 ==> |s| >= 2
    decreases n
  {
    if n < 10 then [Digit(n)] else NatToString(n / 10) + [Digit(n % 10)]
  }

  /** Distinct timestamps render to distinct strings. */
  lemma {:induction false} NatToStringInjective(a: nat, b: nat)
    requires NatToString(a) == NatToString(b)
    ensures a == b
    decreases a
  {
    var s := NatToString(a);
    if a >= 10 && b >= 10 {
      assert NatToString(a / 10) == s[..|s| - 1] == NatToString(b / 10);
      NatToStringInjective(a / 10, b / 10);
      assert Digit(a % 10) == s[|s| - 1] == Digit(b % 10);
    }
  }

  /** `user-${Date.now()}`, with the clock reading passed in. */
  function UserId(now: nat): string {
    "user-" + NatToString(now)
  }

  /** A user id never collides with a default id, and different clock readings give different ids. */
  lemma UserIdFresh(now: nat, later: nat)
    ensures UserId(now) != DefaultRing1 && UserId(now) != DefaultRing2
    ensures UserId(now) == UserId(later) ==> now == later
  {
    assert UserId(now)[0] == 'u';
    if UserId(now) == UserId(later) {
      assert NatToString(now) == UserId(now)[5..] == UserId(later)[5..] == NatToString(later);
      NatToStringInjective(now, later);
    }
  }

  /** The record `addFile` appends for a dropped file. */
  function NewFile(name: string, url: string, now: nat): ModelFile {
    ModelFile(UserId(now), name, url, false, DefaultConfig, 1.0)
  }

  /**
   * Two files added at the same clock reading get the same id, and removing
   * that id then deletes both records.
   */
  lemma SameInstantSameId(files: seq<ModelFile>, name1: string, url1: string, name2: string, url2: string, now: nat)
    ensures NewFile(name1, url1, now).id == NewFile(name2, url2, now).id
    ensures RemoveById(files + [NewFile(name1, url1, now), NewFile(name2, url2, now)], UserId(now))
            == RemoveById(files, UserId(now))
  {
    var added := [NewFile(name1, url1, now), NewFile(name2, url2, now)];
    RemoveByIdAppend(files, added, UserId(now));
    assert added[1..][1..] == [];
  }

  // ----------------------------------------------------------- invariant

  /** `f` is the shipped record `d`, apart from the config the user may have changed. */
  predicate IsDefaultRecord(f: ModelFile, d: ModelFile) {
    f == d.(config := f.config)
  }

  /** The shipped records stay at the front of the list, in their order. */
  predicate DefaultsFirst(files: seq<ModelFile>) {
    |files| >= 2 && IsDefaultRecord(files[0], DefaultFiles[0]) && IsDefaultRecord(files[1], DefaultFiles[1])
  }

  /** `newFiles[0]?.id || null`: the first id, unless there is none or it is empty. */
  function FirstId(files: seq<ModelFile>): Option<string> {
    if files == [] || files[0].id == "" then None else Some(files[0].id)
  }

  /** With the defaults in front, the fallback selection is always the first default ring. */
  lemma FallbackIsFirstDefault(files: seq<ModelFile>)
    requires DefaultsFirst(files)
    ensures FirstId(files) == Some(DefaultRing1)
  {
  }

  /** The search for an id stops at a default record carrying it, so removal of a default id is refused. */
  lemma DefaultIdFindsDefault(files: seq<ModelFile>, id: string)
    requires DefaultsFirst(files)
    requires id == DefaultRing1 || id == DefaultRing2
    ensures FindFirst(files, id).Some? && FindFirst(files, id).value.isDefault
  {
    assert files[0].id == DefaultRing1 && files[1].id == DefaultRing2;
    if id == DefaultRing2 {
      assert files[0].id != id;
    }
  }

  /** Removing an id that no default record carries keeps the defaults in front. */
  lemma RemoveKeepsDefaults(files: seq<ModelFile>, id: string)
    requires DefaultsFirst(files)
    requires files[0].id != id && files[1].id != id
    ensures DefaultsFirst(RemoveById(files, id))
  {
    RemoveByIdAppend(files[..2], files[2..], id);
    assert files[..2] + files[2..] == files;
    assert RemoveById(files[..2], id) == files[..2];
  }

  // ---------------------------------------------------------------- store

  /** The store's state: the records and the selected id (`null` is `None`). */
  class Store {
    var files: seq<ModelFile>
    var selectedFileId: Option<string>

    ghost predicate Valid()
      reads this
    {
      DefaultsFirst(files)
    }

    /** The initial state: the two defaults, the first one selected. */
    constructor()
      ensures Valid()
      ensures files == DefaultFiles && selectedFileId == Some(DefaultRing1)
    {
      files := DefaultFiles;
      selectedFileId := if DefaultFiles[0].id == "" then None else Some(DefaultFiles[0].id);
    }

    /** `addFile`: append a record for the file and select it. */
    method AddFile(name: string, url: string, now: nat)
      requires Valid()
      modifies this
      ensures Valid()
      ensures files == old(files) + [NewFile(name, url, now)]
      ensures selectedFileId == Some(UserId(now))
    {
      var newFile := NewFile(name, url, now);
      files := files + [newFile];
      selectedFileId := Some(newFile.id);
    }

    /**
     * `removeFile`: nothing happens when no record has the id or the first
     * one found is a default; otherwise every record with the id goes, and a
     * selection of that id falls back to the first remaining record.
     */
    method RemoveFile(id: string)
      requires Valid()
      modifies this
      ensures Valid()
      ensures var found := FindFirst(old(files), id);
              if found.None? || found.value.isDefault then
                files == old(files) && selectedFileId == old(selectedFileId)
              else
                files == RemoveById(old(files), id) &&
                selectedFileId == (if old(selectedFileId) == Some(id) then FirstId(files) else old(selectedFileId))
    {
      var file := FindFirst(files, id);
      if file.None? || file.value.isDefault {
        return;
      }
      if id == DefaultRing1 || id == DefaultRing2 {
        DefaultIdFindsDefault(files, id);
      }
      RemoveKeepsDefaults(files, id);
      var newFiles := RemoveById(files, id);
      var newSelectedId := if selectedFileId == Some(id) then FirstId(newFiles) else selectedFileId;
      files, selectedFileId := newFiles, newSelectedId;
    }

    /** `selectFile`: select the id, whether or not a record carries it. */
    method SelectFile(id: string)
      requires Valid()
      modifies this
      ensures Valid()
      ensures files == old(files) && selectedFileId == Some(id)
    {
      selectedFileId := Some(id);
    }

    /** `getSelectedConfig`. */
    function GetSelectedConfig(): (r: Option<ModelConfig>)
      reads this
      ensures selectedFileId.None? ==> r.None?
      ensures r.Some? ==> exists i :: 0 <= i < |files| && files[i].id == selectedFileId.value && r.value == files[i].config
    {
      SelectedConfigSpec(files, selectedFileId);
      SelectedConfig(files, selectedFileId)
    }

    /** `setConfig`: merge the patch into the config of every record with the selected id, if one is selected. */
    method SetConfig(patch: ConfigPatch)
      requires Valid()
      modifies this
      ensures Valid()
      ensures selectedFileId == old(selectedFileId)
      ensures files == if old(selectedFileId).None? || old(selectedFileId).value == "" then old(files)
                       else UpdateConfig(old(files), old(selectedFileId).value, patch)
    {
      if selectedFileId.None? || selectedFileId.value == "" {
        return;
      }
      files := UpdateConfig(files, selectedFileId.value, patch);
    }

    /** `setTransform`: merge the patch into the transform of every record with the selected id. */
    method SetTransform(patch: TransformPatch)
      requires Valid()
      modifies this
      ensures Valid()
      ensures selectedFileId == old(selectedFileId)
      ensures files == if old(selectedFileId).None? || old(selectedFileId).value == "" then old(files)
                       else UpdateTransform(old(files), old(selectedFileId).value, patch)
    {
      if selectedFileId.None? || selectedFileId.value == "" {
        return;
      }
      files := UpdateTransform(files, selectedFileId.value, patch);
    }
  }
}
