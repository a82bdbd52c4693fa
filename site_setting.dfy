/** The key/value settings table with its read-through cache
    (app/Models/SiteSetting.php). The table is a sequence of rows; the
    cache maps a setting's key to the value remembered for it (the cache
    entry `setting_{key}`, the prefix being left implicit). */
module SiteSettings {
  import opened Common
  import opened Collections

  /** One row of `site_settings`. */
  datatype SettingRow = SettingRow(
    key: string,
    value: Option<string>,
    settingType: string,
    group: string,
    labelText: string,
    order: int)

  /** The `order` of a row that `set` creates: the column is not written,
      so it takes the table default. */
  const NewRowOrder: int := 0

  /** `where('key', $key)->first()`: the position of the first row with key
      `k`, in table order. */
  function IndexOfKey(rows: seq<SettingRow>, k: string): (r: Option<nat>)
    ensures r.Some? ==> (r.value < |rows| && rows[r.value].key == k &&
      forall j :: 0 <= j < r.value ==> rows[j].key != k)
    ensures r.None? ==> forall j :: 0 <= j < |rows| ==> rows[j].key != k
  {
    if rows == [] then None
    else if rows[0].key == k then Some(0)
    else
      var r := IndexOfKey(rows[1..], k);
      if r.Some? then Some(r.value + 1) else None
  }

  /** The first row with key `k`, if any. */
  function Find(rows: seq<SettingRow>, k: string): (r: Option<SettingRow>)
    ensures r.Some? ==> r.value in rows && r.value.key == k
    ensures r.None? <==> forall j :: 0 <= j < |rows| ==> rows[j].key != k
  {
    var i := IndexOfKey(rows, k);
    if i.Some? then Some(rows[i.value]) else None
  }

  predicate UniqueKeys(rows: seq<SettingRow>)
  {
    forall i, j :: 0 <= i < j < |rows| ==> rows[i].key != rows[j].key
  }

  function KeySet(rows: seq<SettingRow>): set<string>
  {
    set r | r in rows :: r.key
  }

  // ---- The label `set` derives from a key ----

  /** The characters PHP's `ucwords` treats as word separators by default. */
  predicate IsWordDelimiter(c: char)
  {
    c == ' ' || c == '\t' || c == '\r' || c == '\n' || c == '\U{000C}' || c == '\U{000B}'
  }

  function UpperChar(c: char): char
  {
    if 'a' <= c <= 'z' then (c as int - 32) as char else c
  }

  /** `str_replace('_', ' ', $s)`. */
  function UnderscoresToSpaces(s: string): (r: string)
    ensures |r| == |s|
    ensures forall i :: 0 <= i < |s| ==> r[i] == if s[i] == '_' then ' ' else s[i]
    ensures '_' !in r
  {
    seq(|s|, i requires 0 <= i < |s| => if s[i] == '_' then ' ' else s[i])
  }

  /** The scan `ucwords` makes: upper-case a character when it follows a
      separator (`atWordStart` says whether the previous one was). */
  function UcWordsFrom(s: string, atWordStart: bool): (r: string)
    ensures |r| == |s|
    ensures |s| > 0 ==> r[0] == if atWordStart then UpperChar(s[0]) else s[0]
    ensures forall i :: 0 < i < |s| ==> r[i] == if IsWordDelimiter(s[i - 1]) then UpperChar(s[i]) else s[i]
  {
    if s == [] then []
    else [if atWordStart then UpperChar(s[0]) else s[0]] + UcWordsFrom(s[1..], IsWordDelimiter(s[0]))
  }

  /** PHP's `ucwords`: the first character of the string and every
      character after a separator is upper-cased; nothing else changes. */
  function UcWords(s: string): (r: string)
    ensures |r| == |s|
    ensures forall i :: 0 <= i < |s| ==>
      r[i] == if i == 0 || IsWordDelimiter(s[i - 1]) then UpperChar(s[i]) else s[i]
  {
    UcWordsFrom(s, true)
  }

  /** `ucwords(str_replace('_', ' ', $key))`. */
  function DefaultLabel(k: string): (l: string)
    ensures |l| == |k|
  {
    UcWords(UnderscoresToSpaces(k))
  }

  /** The derived label has one character per key character, no
      underscores left, a space where each underscore was, and an
      upper-cased first character and character after each underscore. */
  lemma DefaultLabelShape(k: string)
    ensures |DefaultLabel(k)| == |k|
    ensures '_' !in DefaultLabel(k)
    ensures forall i :: 0 <= i < |k| && k[i] == '_' ==> DefaultLabel(k)[i] == ' '
    ensures forall i :: 0 <= i < |k| && k[i] != '_' && (i == 0 || k[i - 1] == '_') ==>
      DefaultLabel(k)[i] == UpperChar(k[i])
  {
    var u := UnderscoresToSpaces(k);
    var l := DefaultLabel(k);
    assert l == UcWords(u);
    forall i | 0 <= i < |k| ensures l[i] != '_' && (k[i] == '_' ==> l[i] == ' ') {
      assert u[i] != '_';
      assert UcWords(u)[i] == if i == 0 || IsWordDelimiter(u[i - 1]) then UpperChar(u[i]) else u[i];
    }
    forall i | 0 <= i < |k| && k[i] != '_' && (i == 0 || k[i - 1] == '_')
      ensures l[i] == UpperChar(k[i])
    {
      assert u[i] == k[i];
      assert i == 0 || IsWordDelimiter(u[i - 1]);
    }
  }

  /** `$label ?? ucwords(...)`. */
  function LabelFor(labelText: Option<string>, k: string): string
  {
    if labelText.Some? then labelText.value else DefaultLabel(k)
  }

  /** `hours_monday` is labelled `Hours Monday`. */
  lemma DefaultLabelExample()
    ensures DefaultLabel("hours_monday") == "Hours Monday"
  {
    var l := DefaultLabel("hours_monday");
    LabelExampleHead();
    LabelExampleTail();
    assert l == l[..6] + l[6..];
  }

  lemma LabelExampleHead()
    ensures DefaultLabel("hours_monday")[..6] == "Hours "
  {
    var s := UnderscoresToSpaces("hours_monday");
    assert s[..6] == "hours ";
    var l := DefaultLabel("hours_monday");
    assert l[0] == 'H' && l[1] == 'o' && l[2] == 'u' && l[3] == 'r' && l[4] == 's' && l[5] == ' ';
  }

  lemma LabelExampleTail()
    ensures DefaultLabel("hours_monday")[6..] == "Monday"
  {
    var s := UnderscoresToSpaces("hours_monday");
    assert s[5..] == " monday";
    var l := DefaultLabel("hours_monday");
    assert IsWordDelimiter(s[5]) && l[6] == 'M';
    assert !IsWordDelimiter(s[6]) && l[7] == 'o';
    assert !IsWordDelimiter(s[7]) && l[8] == 'n';
    assert !IsWordDelimiter(s[8]) && l[9] == 'd';
    assert !IsWordDelimiter(s[9]) && l[10] == 'a';
    assert !IsWordDelimiter(s[10]) && l[11] == 'y';
  }

  // ---- updateOrCreate ----

  /** `updateOrCreate(['key' => k], [...])`: the first row with key `k` gets
      the new value, type, group and label and keeps its `order`; when there
      is none, a row is appended. */
  function Upsert(rows: seq<SettingRow>, k: string, v: Option<string>, settingType: string, group: string, labelText: string): (r: seq<SettingRow>)
    ensures Find(r, k) == Some(SettingRow(k, v, settingType, group, labelText,
      if Find(rows, k).Some? then Find(rows, k).value.order else NewRowOrder))
    ensures forall k' :: k' != k ==> Find(r, k') == Find(rows, k')
    ensures |r| == if Find(rows, k).Some? then |rows| else |rows| + 1
    ensures UniqueKeys(rows) ==> UniqueKeys(r)
    ensures KeySet(r) == KeySet(rows) + {k}
  {
    var i := IndexOfKey(rows, k);
    if i.Some? then
      var r := rows[i.value := rows[i.value].(value := v, settingType := settingType, group := group, labelText := labelText)];
      UpdatePreservesFind(rows, i.value, r, k);
      assert KeySet(r) == KeySet(rows) by {
        forall x | x in KeySet(rows) ensures x in KeySet(r) {
          var j :| 0 <= j < |rows| && rows[j].key == x;
          assert r[j].key == x;
        }
        forall x | x in KeySet(r) ensures x in KeySet(rows) {
          var j :| 0 <= j < |r| && r[j].key == x;
          assert rows[j].key == x;
        }
      }
      r
    else
      var row := SettingRow(k, v, settingType, group, labelText, NewRowOrder);
      AppendPreservesFind(rows, row);
      assert KeySet(rows + [row]) == KeySet(rows) + {k} by {
        forall x | x in KeySet(rows + [row]) ensures x in KeySet(rows) + {k} {
          var j :| 0 <= j < |rows| + 1 && (rows + [row])[j].key == x;
          if j < |rows| { assert rows[j].key == x; }
        }
        forall x | x in KeySet(rows) ensures x in KeySet(rows + [row]) {
          var j :| 0 <= j < |rows| && rows[j].key == x;
          assert (rows + [row])[j].key == x;
        }
      }
      rows + [row]
  }

  /** The first row with key `k` is at `i`. */
  lemma IndexOfKeyIs(rows: seq<SettingRow>, k: string, i: nat)
    requires i < |rows| && rows[i].key == k
    requires forall j :: 0 <= j < i ==> rows[j].key != k
    ensures IndexOfKey(rows, k) == Some(i)
  {
  }

  /** No row has key `k`. */
  lemma IndexOfKeyNone(rows: seq<SettingRow>, k: string)
    requires forall j :: 0 <= j < |rows| ==> rows[j].key != k
    ensures IndexOfKey(rows, k).None?
  {
  }

  /** Rewriting the first row with key `k`, keeping its key, changes the
      lookup of `k` only, and keeps unique keys unique. */
  lemma UpdatePreservesFind(rows: seq<SettingRow>, i: nat, r: seq<SettingRow>, k: string)
    requires IndexOfKey(rows, k) == Some(i)
    requires |r| == |rows| && r[i].key == k
    requires forall j :: 0 <= j < |rows| && j != i ==> r[j] == rows[j]
    ensures Find(r, k) == Some(r[i])
    ensures forall k' :: k' != k ==> Find(r, k') == Find(rows, k')
    ensures UniqueKeys(rows) ==> UniqueKeys(r)
  {
    IndexOfKeyIs(r, k, i);
    forall k' | k' != k
      ensures Find(r, k') == Find(rows, k')
    {
      var a := IndexOfKey(rows, k');
      if a.Some? {
        IndexOfKeyIs(r, k', a.value);
      } else {
        IndexOfKeyNone(r, k');
      }
    }
  }

  /** Appending a row with a fresh key makes it the row for that key and
      changes no other lookup. */
  lemma AppendPreservesFind(rows: seq<SettingRow>, row: SettingRow)
    requires Find(rows, row.key).None?
    ensures Find(rows + [row], row.key) == Some(row)
    ensures forall k' :: k' != row.key ==> Find(rows + [row], k') == Find(rows, k')
    ensures UniqueKeys(rows) ==> UniqueKeys(rows + [row])
  {
    var r := rows + [row];
    IndexOfKeyIs(r, row.key, |rows|);
    forall k' | k' != row.key
      ensures Find(r, k') == Find(rows, k')
    {
      var a := IndexOfKey(rows, k');
      if a.Some? {
        IndexOfKeyIs(r, k', a.value);
      } else {
        IndexOfKeyNone(r, k');
      }
    }
  }

  /** Removing row `i` changes no lookup except possibly that of its key. */
  lemma RemovePreservesFind(rows: seq<SettingRow>, i: nat, k': string)
    requires i < |rows| && k' != rows[i].key
    ensures Find(rows[..i] + rows[i + 1..], k') == Find(rows, k')
  {
    var r := rows[..i] + rows[i + 1..];
    assert forall j :: 0 <= j < i ==> r[j] == rows[j];
    assert forall j :: i <= j < |r| ==> r[j] == rows[j + 1];
    var a := IndexOfKey(rows, k');
    if a.Some? {
      var w := if a.value < i then a.value else a.value - 1;
      assert r[w] == rows[a.value];
      IndexOfKeyIs(r, k', w);
    } else {
      IndexOfKeyNone(r, k');
    }
  }

  // ---- getGroup ----

  function RowOrder(r: SettingRow): int
  {
    r.order
  }

  /** The rows of group `g`, in ascending `order` (ties in no promised
      order). */
  function GroupRows(rows: seq<SettingRow>, g: string): (r: seq<SettingRow>)
    ensures SortedBy(r, RowOrder)
    ensures forall i :: 0 <= i < |r| ==> r[i].group == g && r[i] in rows
    ensures forall i :: 0 <= i < |rows| && rows[i].group == g ==> rows[i] in r
    ensures multiset(r) == multiset(Filter(rows, (s: SettingRow) => s.group == g))
  {
    var members := Filter(rows, (s: SettingRow) => s.group == g);
    var r := SortBy(members, RowOrder);
    forall i | 0 <= i < |r|
      ensures r[i].group == g && r[i] in rows
    {
      assert r[i] in multiset(members);
      assert r[i] in members;
    }
    forall i | 0 <= i < |rows| && rows[i].group == g
      ensures rows[i] in r
    {
      assert rows[i] in multiset(members);
    }
    r
  }

  /** `getGroup(g)`: `key => value` for the settings of group `g`, in the
      order of `GroupRows`, that is ascending `order`. */
  function GetGroup(rows: seq<SettingRow>, g: string): (s: seq<(string, Option<string>)>)
    ensures |s| == |GroupRows(rows, g)|
    ensures forall i :: 0 <= i < |s| ==> s[i] == (GroupRows(rows, g)[i].key, GroupRows(rows, g)[i].value)
  {
    var gr := GroupRows(rows, g);
    seq(|gr|, i requires 0 <= i < |gr| => (gr[i].key, gr[i].value))
  }

  /** The group lists exactly the key/value pairs of the rows in group `g`,
      and their `order`s ascend along it. */
  lemma GetGroupContents(rows: seq<SettingRow>, g: string)
    ensures var s := GetGroup(rows, g);
      forall j :: 0 <= j < |rows| && rows[j].group == g ==> (rows[j].key, rows[j].value) in s
    ensures var s := GetGroup(rows, g);
      forall i :: 0 <= i < |s| ==> exists j :: 0 <= j < |rows| && rows[j].group == g && (rows[j].key, rows[j].value) == s[i]
    ensures var gr := GroupRows(rows, g);
      forall i, j :: 0 <= i < j < |gr| ==> gr[i].order <= gr[j].order
  {
    GetGroupComplete(rows, g);
    GetGroupSound(rows, g);
    assert SortedBy(GroupRows(rows, g), RowOrder);
  }

  lemma GetGroupComplete(rows: seq<SettingRow>, g: string)
    ensures var s := GetGroup(rows, g);
      forall j :: 0 <= j < |rows| && rows[j].group == g ==> (rows[j].key, rows[j].value) in s
  {
    var gr := GroupRows(rows, g);
    var s := GetGroup(rows, g);
    forall j | 0 <= j < |rows| && rows[j].group == g
      ensures (rows[j].key, rows[j].value) in s
    {
      var i :| 0 <= i < |gr| && gr[i] == rows[j];
      assert s[i] == (rows[j].key, rows[j].value);
    }
  }

  lemma GetGroupSound(rows: seq<SettingRow>, g: string)
    ensures var s := GetGroup(rows, g);
      forall i :: 0 <= i < |s| ==> exists j :: 0 <= j < |rows| && rows[j].group == g && (rows[j].key, rows[j].value) == s[i]
  {
    var gr := GroupRows(rows, g);
    var s := GetGroup(rows, g);
    forall i | 0 <= i < |s|
      ensures exists j :: 0 <= j < |rows| && rows[j].group == g && (rows[j].key, rows[j].value) == s[i]
    {
      var j :| 0 <= j < |rows| && rows[j] == gr[i];
    }
  }

  // ---- The table and the cache ----

  /** What `get(k, d)` answers against table `rows` and cache `cache`. */
  function Read(rows: seq<SettingRow>, cache: map<string, Option<string>>, k: string, d: Option<string>): Option<string>
  {
    if k in cache then cache[k]
    else if Find(rows, k).Some? then Find(rows, k).value.value
    else d
  }

  class SettingsStore {
    var rows: seq<SettingRow>
    var cache: map<string, Option<string>>

    /** A remembered value for a stored key is that key's current value;
        for a key with no row the cache may hold whichever default the
        first `get` supplied. */
    predicate Valid()
      reads this
    {
      forall k :: k in cache && Find(rows, k).Some? ==> cache[k] == Find(rows, k).value.value
    }

    constructor (initial: seq<SettingRow>)
      ensures rows == initial && cache == map[] && Valid()
    {
      rows := initial;
      cache := map[];
    }

    /** `get(k, d)`: the remembered value, else the stored value (or `d` when
        there is no row), which is then remembered. A stored key always
        reads its stored value, even when it is null. */
    method Get(k: string, d: Option<string>) returns (r: Option<string>)
      requires Valid()
      modifies this`cache
      ensures Valid() && rows == old(rows)
      ensures r == Read(rows, old(cache), k, d)
      ensures cache == old(cache)[k := r]
      ensures Find(rows, k).Some? ==> r == Find(rows, k).value.value
      ensures Find(rows, k).None? && k !in old(cache) ==> r == d
    {
      if k in cache {
        r := cache[k];
      } else {
        var row := Find(rows, k);
        r := if row.Some? then row.value.value else d;
        cache := cache[k := r];
      }
    }

    /** `set(k, v, label, group, type)`: upsert the row, then forget the
        key (the `saved` hook forgets the same key again). */
    method Set(k: string, v: Option<string>, labelText: Option<string>, group: string, settingType: string)
      requires Valid()
      modifies this
      ensures rows == Upsert(old(rows), k, v, settingType, group, LabelFor(labelText, k))
      ensures cache == old(cache) - {k}
      ensures Valid()
    {
      rows := Upsert(rows, k, v, settingType, group, LabelFor(labelText, k));
      cache := cache - {k};
    }

    /** Deleting row `i`; the `deleted` hook forgets its key. */
    method Delete(i: nat)
      requires Valid() && i < |rows|
      modifies this
      ensures rows == old(rows)[..i] + old(rows)[i + 1..]
      ensures cache == old(cache) - {old(rows)[i].key}
      ensures Valid()
    {
      var k := rows[i].key;
      forall k' | k' != k
        ensures Find(rows[..i] + rows[i + 1..], k') == Find(rows, k')
      {
        RemovePreservesFind(rows, i, k');
      }
      rows := rows[..i] + rows[i + 1..];
      cache := cache - {k};
    }

    /** `clearCache()`: forget the entry of every stored key; entries for
        keys without a row (remembered defaults) stay. */
    method ClearCache()
      modifies this`cache
      ensures cache == old(cache) - KeySet(rows)
      ensures rows == old(rows) && Valid()
    {
      var i := 0;
      while i < |rows|
        invariant 0 <= i <= |rows|
        invariant cache == old(cache) - KeySet(rows[..i])
      {
        assert rows[..i + 1] == rows[..i] + [rows[i]];
        assert KeySet(rows[..i + 1]) == KeySet(rows[..i]) + {rows[i].key};
        cache := cache - {rows[i].key};
        i := i + 1;
      }
      assert rows[..|rows|] == rows;
    }
  }

  /** A miss remembers the caller's non-null default: a second `get` of a
      missing key with another default still answers the first default. */
  method GetTwice(store: SettingsStore, k: string, d1: Option<string>, d2: Option<string>) returns (r1: Option<string>, r2: Option<string>)
    requires store.Valid() && k !in store.cache && Find(store.rows, k).None? && d1.Some?
    modifies store
    ensures r1 == d1 && r2 == d1
  {
    r1 := store.Get(k, d1);
    r2 := store.Get(k, d2);
  }

  /** After `set(k, v)` the next `get(k, _)` answers `v`, and every other
      key reads as before. */
  method SetThenGet(store: SettingsStore, k: string, v: Option<string>, labelText: Option<string>, group: string,
                    d: Option<string>, other: string, d': Option<string>)
      returns (r: Option<string>, before: Option<string>, after: Option<string>)
    requires store.Valid() && other != k
    modifies store
    ensures r == v
    ensures before == after
  {
    before := Read(store.rows, store.cache, other, d');
    store.Set(k, v, labelText, group, "text");
    r := store.Get(k, d);
    after := Read(store.rows, store.cache, other, d');
  }
}
