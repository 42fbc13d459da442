/** The fake android.provider.Settings: one table of integer settings per
    content resolver, shared by Settings.System and Settings.Secure, created
    lazily and updated in place. */
module FakeSettings {

  /** A content resolver. WeakHashMap compares keys with equals, and
      ContentResolver keeps Object.equals, so keys are compared by identity. */
  datatype ContentResolver = ContentResolver(id: int)

  /** The two settings tables the fake implements; both read and write the
      same store. */
  datatype Table = System | Secure

  /** Settings.System.AIRPLANE_MODE_ON. */
  const AirplaneModeOn: string := "airplane_mode_on"
  /** Settings.Secure.WIFI_ON. */
  const WifiOn: string := "wifi_on"

  // ----- The store as a value -----

  /** What the store holds: for each resolver seen so far, its settings. */
  type Contents = map<ContentResolver, map<string, int>>

  /** The map get(cr) yields: the resolver's settings, or a new empty map. */
  function Settings(c: Contents, cr: ContentResolver): map<string, int>
  {
    if cr in c then c[cr] else map[]
  }

  /** The store after get(cr): the resolver now has a (possibly empty) map. */
  function Touch(c: Contents, cr: ContentResolver): (r: Contents)
    ensures r.Keys == c.Keys + {cr}
  {
    c[cr := Settings(c, cr)]
  }

  /** The store after putInt(cr, name, value). */
  function Put(c: Contents, cr: ContentResolver, name: string, value: int): (r: Contents)
    ensures r.Keys == c.Keys + {cr}
  {
    c[cr := Settings(c, cr)[name := value]]
  }

  /** What getInt(cr, name, def) answers: the stored value, else def. */
  function Lookup(c: Contents, cr: ContentResolver, name: string, def: int): int
  {
    if cr in c && name in c[cr] then c[cr][name] else def
  }

  /** After putInt(cr, name, v), getInt(cr, name, d) answers v whatever d is. */
  lemma ReadAfterPut(c: Contents, cr: ContentResolver, name: string, v: int, d: int)
    ensures Lookup(Put(c, cr, name, v), cr, name, d) == v
  {
  }

  /** With nothing stored under (cr, name), getInt answers the default. */
  lemma DefaultWhenAbsent(c: Contents, cr: ContentResolver, name: string, d: int)
    requires cr !in c || name !in c[cr]
    ensures Lookup(c, cr, name, d) == d
  {
  }

  /** putInt(cr, name, v) changes no other setting, under cr or under any
      other resolver. */
  lemma PutLeavesOthers(c: Contents, cr: ContentResolver, name: string, v: int,
                        cr': ContentResolver, name': string, d: int)
    requires cr' != cr || name' != name
    ensures Lookup(Put(c, cr, name, v), cr', name', d) == Lookup(c, cr', name', d)
  {
  }

  /** Installing an empty map for a resolver changes no answer of getInt. */
  lemma TouchInvisible(c: Contents, cr: ContentResolver, cr': ContentResolver, name: string, d: int)
    ensures Lookup(Touch(c, cr), cr', name, d) == Lookup(c, cr', name, d)
  {
  }

  /** A later put of the same setting overrides an earlier one. */
  lemma PutOverrides(c: Contents, cr: ContentResolver, name: string, v: int, w: int)
    ensures Put(Put(c, cr, name, v), cr, name, w) == Put(c, cr, name, w)
  {
    assert Settings(Put(c, cr, name, v), cr)[name := w] == Settings(c, cr)[name := w];
  }

  /** Puts of different settings can be made in either order. */
  lemma PutsCommute(c: Contents, cr: ContentResolver, name: string, v: int,
                    cr': ContentResolver, name': string, w: int)
    requires cr != cr' || name != name'
    ensures Put(Put(c, cr, name, v), cr', name', w) == Put(Put(c, cr', name', w), cr, name, v)
  {
    if cr == cr' {
      assert Settings(c, cr)[name := v][name' := w] == Settings(c, cr)[name' := w][name := v];
    }
  }

  // ----- The store as objects -----

  /** One resolver's HashMap<String, Integer>. */
  class NameMap {
    var entries: map<string, int>

    constructor ()
      ensures entries == map[]
    {
      entries := map[];
    }

    method Put(name: string, value: int)
      modifies this
      ensures entries == old(entries)[name := value]
    {
      entries := entries[name := value];
    }
  }

  /** SettingsImpl's static dataMap. */
  class SettingsStore {
    var dataMap: map<ContentResolver, NameMap>

    /** Different resolvers never share a map. */
    predicate Valid()
      reads this
    {
      forall cr, cr' :: cr in dataMap && cr' in dataMap && cr != cr' ==> dataMap[cr] != dataMap[cr']
    }

    ghost function Contents(): Contents
      reads this, dataMap.Values
    {
      map cr | cr in dataMap :: dataMap[cr].entries
    }

    constructor ()
      ensures dataMap == map[] && Valid() && Contents() == map[]
    {
      dataMap := map[];
    }

    /** get(cr): the resolver's map, installed empty on first use; later
        calls return that same map. */
    method Get(cr: ContentResolver) returns (m: NameMap)
      requires Valid()
      modifies this
      ensures Valid()
      ensures cr in old(dataMap) ==> m == old(dataMap[cr]) && dataMap == old(dataMap)
      ensures cr !in old(dataMap) ==> fresh(m) && dataMap == old(dataMap)[cr := m]
      ensures cr in dataMap && dataMap[cr] == m
      ensures Contents() == Touch(old(Contents()), cr)
    {
      if cr in dataMap {
        m := dataMap[cr];
      } else {
        m := new NameMap();
        dataMap := dataMap[cr := m];
      }
    }

    /** putInt: stores the value under (cr, name) and answers true. */
    method PutInt(table: Table, cr: ContentResolver, name: string, value: int) returns (ok: bool)
      requires Valid()
      modifies this, dataMap.Values
      ensures Valid() && ok
      ensures Contents() == Put(old(Contents()), cr, name, value)
    {
      ghost var before := Contents();
      var m := Get(cr);
      ghost var touched := dataMap;
      m.Put(name, value);
      assert forall cr' :: cr' in touched && cr' != cr ==> touched[cr'] != m;
      ok := true;
    }

    /** getInt: the value stored under (cr, name), or def; like every get
        it installs an empty map for a resolver it has not seen. */
    method GetInt(table: Table, cr: ContentResolver, name: string, def: int) returns (v: int)
      requires Valid()
      modifies this
      ensures Valid()
      ensures v == Lookup(old(Contents()), cr, name, def)
      ensures Contents() == Touch(old(Contents()), cr)
    {
      var m := Get(cr);
      v := if name in m.entries then m.entries[name] else def;
    }
  }

  /** setAirplaneMode: Settings.System.putInt of 1 or 0 under
      airplane_mode_on for the application's resolver. */
  method SetAirplaneMode(store: SettingsStore, appResolver: ContentResolver, isAirplaneMode: bool)
    requires store.Valid()
    modifies store, store.dataMap.Values
    ensures store.Valid()
    ensures store.Contents() == Put(old(store.Contents()), appResolver, AirplaneModeOn,
                                    if isAirplaneMode then 1 else 0)
  {
    var _ := store.PutInt(System, appResolver, AirplaneModeOn, if isAirplaneMode then 1 else 0);
  }

  /** setWifiOn: Settings.Secure.putInt of 1 or 0 under wifi_on for the
      application's resolver. */
  method SetWifiOn(store: SettingsStore, appResolver: ContentResolver, isOn: bool)
    requires store.Valid()
    modifies store, store.dataMap.Values
    ensures store.Valid()
    ensures store.Contents() == Put(old(store.Contents()), appResolver, WifiOn, if isOn then 1 else 0)
  {
    var _ := store.PutInt(Secure, appResolver, WifiOn, if isOn then 1 else 0);
  }

  /** A value put through one table reads back through the other, since
      both use the one store. */
  method PutThenGetAcrossTables(store: SettingsStore, put: Table, get: Table, cr: ContentResolver,
                                name: string, value: int, def: int)
    returns (read: int)
    requires store.Valid()
    modifies store, store.dataMap.Values
    ensures read == value
  {
    var _ := store.PutInt(put, cr, name, value);
    read := store.GetInt(get, cr, name, def);
    ReadAfterPut(old(store.Contents()), cr, name, value, def);
  }
}
