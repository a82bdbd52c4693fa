/** The admin page that edits the store's location and opening hours
    (app/Filament/Pages/ManageStoreHours.php). Its form state is a map from
    field name to (nullable) text; `mount` fills it from the settings store
    and `save` writes every field back. */
module StoreHours {
  import opened Common
  import opened SiteSettings

  /** One form field: its setting key, the default `mount` reads it with,
      the label and group `save` stores it under, and the longest text the
      form accepts for it (`maxLength`). */
  datatype StoreField = StoreField(key: string, fallback: string, labelText: string, group: string, maxLength: nat)

  /** The eleven fields, in the order `mount` reads them and `save` writes
      them. */
  const StoreFields: seq<StoreField> := [
    StoreField("location_name", "South Hill Square", "Location Name", "contact", 255),
    StoreField("address_line1", "South Hills Shopping Center", "Address Line 1", "contact", 255),
    StoreField("address_line2", "1629 N Hacienda Blvd, La Puente, CA 91744", "Address Line 2", "contact", 255),
    StoreField("phone", "(626) 918-8511", "Phone Number", "contact", 50),
    StoreField("hours_monday", "9 AM \U{2013} 7 PM", "Monday Hours", "hours", 50),
    StoreField("hours_tuesday", "9 AM \U{2013} 7 PM", "Tuesday Hours", "hours", 50),
    StoreField("hours_wednesday", "9 AM \U{2013} 7 PM", "Wednesday Hours", "hours", 50),
    StoreField("hours_thursday", "9 AM \U{2013} 7 PM", "Thursday Hours", "hours", 50),
    StoreField("hours_friday", "9 AM \U{2013} 7 PM", "Friday Hours", "hours", 50),
    StoreField("hours_saturday", "10 AM \U{2013} 6 PM", "Saturday Hours", "hours", 50),
    StoreField("hours_sunday", "12 PM \U{2013} 5 PM", "Sunday Hours", "hours", 50)
  ]

  /** No two fields share a setting key. */
  lemma FieldKeysDistinct()
    ensures DistinctKeys(StoreFields)
  {
    forall i, j | 0 <= i < j < |StoreFields|
      ensures StoreFields[i].key != StoreFields[j].key
    {
      var a := StoreFields[i].key;
      var b := StoreFields[j].key;
      if |a| == |b| {
        assert a[0] != b[0] || a[6] != b[6] || a[|a| - 1] != b[|b| - 1];
      }
    }
  }

  /** The location fields go to group `contact`, the hours to `hours`. */
  lemma FieldGroups()
    ensures forall i :: 0 <= i < 4 ==> StoreFields[i].group == "contact"
    ensures forall i :: 4 <= i < 11 ==> StoreFields[i].group == "hours"
  {
  }

  /** The form value of field `f` passes its `maxLength` rule; an empty
      (null) field passes. */
  predicate FieldValid(data: map<string, Option<string>>, f: StoreField)
    requires f.key in data
  {
    data[f.key].None? || |data[f.key].value| <= f.maxLength
  }

  /** `getState()` validates: every field passes its rule. */
  predicate FormValid(data: map<string, Option<string>>)
    requires Covers(data, StoreFields)
  {
    forall j :: 0 <= j < |StoreFields| ==> FieldValid(data, StoreFields[j])
  }

  /** The location fields accept 255 characters, the phone and the hours
      50. */
  lemma FieldLimits()
    ensures forall i :: 0 <= i < 3 ==> StoreFields[i].maxLength == 255
    ensures forall i :: 3 <= i < 11 ==> StoreFields[i].maxLength == 50
  {
  }

  /** The keys of `fs` are pairwise distinct. */
  predicate DistinctKeys(fs: seq<StoreField>)
  {
    forall i, j :: 0 <= i < j < |fs| ==> fs[i].key != fs[j].key
  }

  /** Every field of `fs` has a slot in the form state `data`. */
  predicate Covers(data: map<string, Option<string>>, fs: seq<StoreField>)
  {
    forall j :: 0 <= j < |fs| ==> fs[j].key in data
  }

  /** The `set` for field `fs[j]` is reflected in `rows`: the field's row
      holds the form value, type `text`, group and label, and the `order`
      its row had in `orig` (a new row gets the column default). */
  predicate Saved(orig: seq<SettingRow>, rows: seq<SettingRow>, data: map<string, Option<string>>, fs: seq<StoreField>, j: int)
    requires 0 <= j < |fs| && fs[j].key in data
  {
    var f := fs[j];
    var before := Find(orig, f.key);
    Find(rows, f.key) ==
      Some(SettingRow(f.key, data[f.key], "text", f.group, f.labelText,
                      if before.Some? then before.value.order else NewRowOrder))
  }

  /** The keys of the fields `fs`. */
  function KeysOf(fs: seq<StoreField>): set<string>
  {
    set j | 0 <= j < |fs| :: fs[j].key
  }

  lemma KeysOfStep(fs: seq<StoreField>, i: nat)
    requires i < |fs|
    ensures KeysOf(fs[..i + 1]) == KeysOf(fs[..i]) + {fs[i].key}
  {
    assert fs[..i + 1][i] == fs[i];
    assert forall j :: 0 <= j < i ==> fs[..i + 1][j] == fs[..i][j];
  }

  /** The first `i` fields hold what `save` wrote. */
  ghost predicate WrittenUpTo(orig: seq<SettingRow>, rows: seq<SettingRow>, data: map<string, Option<string>>, fs: seq<StoreField>, i: nat)
    requires i <= |fs| && Covers(data, fs)
  {
    forall j :: 0 <= j < i ==> Saved(orig, rows, data, fs, j)
  }

  /** The fields from `i` on still read as in the original table. */
  ghost predicate PendingFrom(orig: seq<SettingRow>, rows: seq<SettingRow>, fs: seq<StoreField>, i: nat)
  {
    forall j :: i <= j < |fs| ==> Find(rows, fs[j].key) == Find(orig, fs[j].key)
  }

  /** Keys that are not form fields read as in the original table. */
  ghost predicate OthersKept(orig: seq<SettingRow>, rows: seq<SettingRow>, fs: seq<StoreField>)
  {
    forall k :: k !in KeysOf(fs) ==> Find(rows, k) == Find(orig, k)
  }

  /** Writing field `i` records it and leaves later fields alone. */
  lemma WriteStep(orig: seq<SettingRow>, prev: seq<SettingRow>, next: seq<SettingRow>,
                  data: map<string, Option<string>>, fs: seq<StoreField>, i: nat)
    requires i < |fs| && Covers(data, fs) && DistinctKeys(fs)
    requires next == Upsert(prev, fs[i].key, data[fs[i].key], "text", fs[i].group, fs[i].labelText)
    requires WrittenUpTo(orig, prev, data, fs, i) && PendingFrom(orig, prev, fs, i)
    ensures WrittenUpTo(orig, next, data, fs, i + 1) && PendingFrom(orig, next, fs, i + 1)
  {
    forall j | 0 <= j < i ensures Saved(orig, next, data, fs, j) {
      assert fs[j].key != fs[i].key;
      assert Saved(orig, prev, data, fs, j);
    }
    forall j | i + 1 <= j < |fs| ensures Find(next, fs[j].key) == Find(orig, fs[j].key) {
      assert fs[i].key != fs[j].key;
    }
    assert Find(prev, fs[i].key) == Find(orig, fs[i].key);
  }

  /** Writing field `i` leaves every other key alone. */
  lemma OthersStep(orig: seq<SettingRow>, prev: seq<SettingRow>, next: seq<SettingRow>,
                   data: map<string, Option<string>>, fs: seq<StoreField>, i: nat)
    requires i < |fs| && Covers(data, fs)
    requires next == Upsert(prev, fs[i].key, data[fs[i].key], "text", fs[i].group, fs[i].labelText)
    requires OthersKept(orig, prev, fs)
    ensures OthersKept(orig, next, fs)
  {
    forall k | k !in KeysOf(fs) ensures Find(next, k) == Find(orig, k) {
      assert fs[i].key in KeysOf(fs);
    }
  }

  /** `SiteSetting::get(key, default)` for each field of `fs` in order,
      collected by key; each read is answered against the cache as it
      stood before the first, since the keys are distinct. */
  method ReadFields(store: SettingsStore, fs: seq<StoreField>) returns (filled: map<string, Option<string>>)
    requires store.Valid() && DistinctKeys(fs)
    modifies store`cache
    ensures store.Valid() && store.rows == old(store.rows)
    ensures forall j :: 0 <= j < |fs| ==>
      fs[j].key in filled && filled[fs[j].key] == Read(store.rows, old(store.cache), fs[j].key, Some(fs[j].fallback))
    ensures forall k :: k in filled ==> k in store.cache && store.cache[k] == filled[k]
    ensures forall k :: k !in filled ==> (k in store.cache <==> k in old(store.cache))
    ensures forall k :: k !in filled && k in old(store.cache) ==> store.cache[k] == old(store.cache)[k]
  {
    filled := map[];
    var i := 0;
    while i < |fs|
      invariant 0 <= i <= |fs|
      invariant store.Valid() && store.rows == old(store.rows)
      invariant forall k :: k in filled ==> k in store.cache && store.cache[k] == filled[k]
      invariant forall k :: k !in filled ==> (k in store.cache <==> k in old(store.cache))
      invariant forall k :: k !in filled && k in old(store.cache) ==> store.cache[k] == old(store.cache)[k]
      invariant forall k :: k in filled ==> exists j :: 0 <= j < i && fs[j].key == k
      invariant forall j :: 0 <= j < i ==>
        fs[j].key in filled && filled[fs[j].key] == Read(store.rows, old(store.cache), fs[j].key, Some(fs[j].fallback))
    {
      var f := fs[i];
      assert f.key !in filled;
      var v := store.Get(f.key, Some(f.fallback));
      filled := filled[f.key := v];
      i := i + 1;
    }
  }

  /** `SiteSetting::set(key, value, label, group)` for each field of `fs`
      in order: every field's row holds its form value, every other key
      reads as before, and the written keys are forgotten by the cache. */
  method WriteFields(store: SettingsStore, data: map<string, Option<string>>, fs: seq<StoreField>)
    requires store.Valid() && Covers(data, fs) && DistinctKeys(fs)
    modifies store
    ensures store.Valid()
    ensures forall j :: 0 <= j < |fs| ==> Saved(old(store.rows), store.rows, data, fs, j)
    ensures forall k :: k !in KeysOf(fs) ==> Find(store.rows, k) == Find(old(store.rows), k)
    ensures store.cache == old(store.cache) - KeysOf(fs)
  {
    var i := 0;
    while i < |fs|
      invariant 0 <= i <= |fs|
      invariant store.Valid()
      invariant store.cache == old(store.cache) - KeysOf(fs[..i])
      invariant WrittenUpTo(old(store.rows), store.rows, data, fs, i)
      invariant PendingFrom(old(store.rows), store.rows, fs, i)
      invariant OthersKept(old(store.rows), store.rows, fs)
    {
      var f := fs[i];
      ghost var prev := store.rows;
      store.Set(f.key, data[f.key], Some(f.labelText), f.group, "text");
      WriteStep(old(store.rows), prev, store.rows, data, fs, i);
      OthersStep(old(store.rows), prev, store.rows, data, fs, i);
      KeysOfStep(fs, i);
      i := i + 1;
    }
    assert fs[..i] == fs;
  }

  class StoreHoursPage {
    var data: map<string, Option<string>>

    constructor ()
      ensures data == map[]
    {
      data := map[];
    }

    /** Every field has a slot in the form state. */
    predicate Filled()
      reads this
    {
      Covers(data, StoreFields)
    }

    /** `mount()`: each field is `SiteSetting::get(key, default)`, each read
        answered against the cache as it stood before `mount`. */
    method Mount(store: SettingsStore)
      requires store.Valid()
      modifies this, store`cache
      ensures store.Valid() && store.rows == old(store.rows) && Filled()
      ensures forall i :: 0 <= i < |StoreFields| ==>
        data[StoreFields[i].key] == Read(store.rows, old(store.cache), StoreFields[i].key, Some(StoreFields[i].fallback))
      ensures forall i :: 0 <= i < |StoreFields| && Find(store.rows, StoreFields[i].key).Some? ==>
        data[StoreFields[i].key] == Find(store.rows, StoreFields[i].key).value.value
      ensures forall i :: 0 <= i < |StoreFields| ==>
        StoreFields[i].key in store.cache && store.cache[StoreFields[i].key] == data[StoreFields[i].key]
    {
      FieldKeysDistinct();
      var filled := ReadFields(store, StoreFields);
      data := filled;
    }

    /** The administrator edits one field of the form. */
    method Edit(k: string, v: Option<string>)
      modifies this
      ensures data == old(data)[k := v]
    {
      data := data[k := v];
    }

    /** `save()`: `getState()` validates the form; when a field is too long
        nothing is written (`saved` is false), otherwise
        `SiteSetting::set(key, value, label, group)` runs for each of the
        eleven fields, in order. */
    method Save(store: SettingsStore) returns (saved: bool)
      requires store.Valid() && Filled()
      modifies store
      ensures store.Valid()
      ensures saved == FormValid(data)
      ensures !saved ==> store.rows == old(store.rows) && store.cache == old(store.cache)
      ensures saved ==> forall j :: 0 <= j < |StoreFields| ==> Saved(old(store.rows), store.rows, data, StoreFields, j)
      ensures forall k :: k !in KeysOf(StoreFields) ==> Find(store.rows, k) == Find(old(store.rows), k)
      ensures saved ==> store.cache == old(store.cache) - KeysOf(StoreFields)
    {
      saved := FormValid(data);
      if !saved {
        return;
      }
      FieldKeysDistinct();
      WriteFields(store, data, StoreFields);
    }
  }

  /** Opening the page and saving it unedited changes no value any reader
      sees, whether or not validation lets the save through, and a save
      that goes through leaves a row for every field. */
  method MountThenSave(page: StoreHoursPage, store: SettingsStore) returns (saved: bool)
    requires store.Valid()
    modifies page, store
    ensures store.Valid()
    ensures saved ==> forall i :: 0 <= i < |StoreFields| ==> Find(store.rows, StoreFields[i].key).Some?
    ensures !saved ==> store.rows == old(store.rows)
    ensures forall i, d :: 0 <= i < |StoreFields| ==>
      Read(store.rows, store.cache, StoreFields[i].key, d) ==
      Read(old(store.rows), old(store.cache), StoreFields[i].key, Some(StoreFields[i].fallback))
  {
    page.Mount(store);
    ghost var mounted := store.rows;
    ghost var form := page.data;
    saved := page.Save(store);
    if saved {
      forall i | 0 <= i < |StoreFields|
        ensures Find(store.rows, StoreFields[i].key).Some?
        ensures StoreFields[i].key !in store.cache
        ensures Find(store.rows, StoreFields[i].key).value.value == form[StoreFields[i].key]
      {
        assert StoreFields[i].key in KeysOf(StoreFields);
        assert Saved(mounted, store.rows, form, StoreFields, i);
      }
    }
  }
}
