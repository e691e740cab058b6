/** Server settings: the registry of defaults and the provider that keeps them as API objects. */
module Settings {
  import opened Wrappers
  import opened ApiStore

  datatype Setting = Setting(name: string, defaultValue: string, readOnly: bool)

  /** The two fields of a stored Setting. */
  datatype Stored = Stored(value: string, defaultValue: string)

  type SettingDb = Db<Stored, ()>

  function SettingKey(name: string): ObjKey {
    ObjKey("", name)
  }

  // ----- Environment -----

  function UpperChar(c: char): char {
    if 'a' <= c <= 'z' then c - 'a' + 'A' else c
  }

  function EnvName(name: string): string {
    seq(|name|, i requires 0 <= i < |name| => if name[i] == '-' then '_' else UpperChar(name[i]))
  }

  function GetEnvKey(name: string): string {
    "ONEBLOCK_" + EnvName(name)
  }

  function Getenv(env: map<string, string>, name: string): string {
    var key := GetEnvKey(name);
    if key in env then env[key] else ""
  }

  /** Which variable is read: the prefix, then the name in capitals with underscores for dashes. */
  lemma EnvKeyIsCapitals(name: string)
    ensures var key := GetEnvKey(name);
      && |key| == 9 + |name| && key[..9] == "ONEBLOCK_"
      && forall i :: 0 <= i < |name| ==>
           key[9 + i] ==
           if name[i] == '-' then '_'
           else if 'a' <= name[i] <= 'z' then (name[i] as int - 32) as char
           else name[i]
  {
  }

  /** A variable that is not set, or empty, counts for nothing; otherwise its value does. */
  lemma VariableCounts(env: map<string, string>, name: string)
    ensures Getenv(env, name) != "" <==> GetEnvKey(name) in env && env[GetEnvKey(name)] != ""
    ensures Getenv(env, name) != "" ==> Getenv(env, name) == env[GetEnvKey(name)]
  {
  }

  // ----- What SetAll makes of one setting -----

  function Effective(s: Stored): string {
    if s.value == "" then s.defaultValue else s.value
  }

  /** The stored object after registration: the registered default, and the environment value if there is one. */
  function Synced(before: Option<Stored>, defaultValue: string, envValue: string): Stored {
    match before
    case None => Stored(envValue, defaultValue)
    case Some(s) => Stored(if envValue != "" then envValue else s.value, defaultValue)
  }

  function Find(db: SettingDb, name: string): Option<Stored> {
    if SettingKey(name) in db.objects then Some(db.objects[SettingKey(name)].meta) else None
  }

  /** Everything about `name` is as SetAll leaves it. */
  ghost predicate InSync(before: SettingDb, after: SettingDb, s: Setting, env: map<string, string>) {
    Find(after, s.name) == Some(Synced(Find(before, s.name), s.defaultValue, Getenv(env, s.name)))
  }

  /** The fallback map knows the effective value of `name`. */
  ghost predicate Remembered(db: SettingDb, fallback: map<string, string>, name: string) {
    name in fallback && Find(db, name).Some? && fallback[name] == Effective(Find(db, name).value)
  }

  ghost predicate Untouched(before: SettingDb, after: SettingDb, k: ObjKey) {
    if k in before.objects then k in after.objects && after.objects[k] == before.objects[k] else k !in after.objects
  }

  ghost predicate OthersUntouched(before: SettingDb, after: SettingDb, names: set<string>) {
    forall k: ObjKey :: k.ns != "" || k.name !in names ==> Untouched(before, after, k)
  }

  /** Registered settings are keyed by their names. */
  predicate Keyed(settings: map<string, Setting>) {
    forall name :: name in settings ==> settings[name].name == name
  }

  /** Which calls fail: reads and writes, by setting name. */
  datatype Weather = Weather(readDown: set<string>, writeDown: set<string>)

  class Provider {
    const env: map<string, string>
    var db: SettingDb
    var fallback: map<string, string>

    constructor (db: SettingDb, env: map<string, string>)
      ensures this.db == db && this.env == env && fallback == map[]
    {
      this.db, this.env, this.fallback := db, env, map[];
    }

    /** `cached` and `clientUp` say which of the two lookups answer. */
    method Get(name: string, cached: Option<Stored>, clientUp: bool) returns (value: string)
      ensures value == Answer(Getenv(env, name), cached, if clientUp then Find(db, name) else None, fallback, name)
    {
      var envValue := Getenv(env, name);
      if envValue != "" {
        return envValue;
      }
      var obj := cached;
      if obj.None? {
        obj := if clientUp then Find(db, name) else None;
        if obj.None? {
          return if name in fallback then fallback[name] else "";
        }
      }
      if obj.value.value == "" {
        return obj.value.defaultValue;
      }
      return obj.value.value;
    }

    method Set(name: string, value: string, w: Weather) returns (ok: bool)
      modifies this`db
      ensures ok <==>
        Getenv(env, name) == "" && name !in w.readDown && Find(old(db), name).Some? && name !in w.writeDown
      ensures !ok ==> db == old(db)
      ensures ok ==> Find(db, name) == Some(Find(old(db), name).value.(value := value))
      ensures forall k :: k != SettingKey(name) ==> Untouched(old(db), db, k)
      ensures ok && Remembered(old(db), fallback, name) ==>
        (SourcesAgree(db, fallback, name) <==> SetKeepsEffective(Find(old(db), name).value, value))
    {
      var envValue := Getenv(env, name);
      if envValue != "" || name in w.readDown || SettingKey(name) !in db.objects {
        return false;
      }
      var obj := db.objects[SettingKey(name)];
      obj := obj.(meta := obj.meta.(value := value));
      var reply := Update(db, SettingKey(name), obj, name !in w.writeDown);
      ghost var before := db;
      db := reply.db;
      if reply.result.Success? && Remembered(before, fallback, name) {
        SourcesAgreeAfterSetIff(before, db, fallback, name, value);
      }
      return reply.result.Success?;
    }

    method SetIfUnset(name: string, value: string, w: Weather) returns (ok: bool)
      modifies this`db
      ensures ok <==> name !in w.readDown && Find(old(db), name).Some? &&
                      (Find(old(db), name).value.value != "" || name !in w.writeDown)
      ensures !ok ==> db == old(db)
      ensures ok ==> Find(db, name) ==
                     Some(if Find(old(db), name).value.value != "" then Find(old(db), name).value
                          else Find(old(db), name).value.(value := value))
      ensures forall k :: k != SettingKey(name) ==> Untouched(old(db), db, k)
    {
      if name in w.readDown || SettingKey(name) !in db.objects {
        return false;
      }
      var obj := db.objects[SettingKey(name)];
      if obj.meta.value != "" {
        return true;
      }
      obj := obj.(meta := obj.meta.(value := value));
      var reply := Update(db, SettingKey(name), obj, name !in w.writeDown);
      db := reply.db;
      return reply.result.Success?;
    }

    /** One round of the loop in SetAll. */
    method Register(s: Setting, w: Weather, soFar: map<string, string>)
      returns (ok: bool, collected: map<string, string>)
      modifies this`db
      ensures ok ==> InSync(old(db), db, s, env)
      ensures ok ==>
        collected == soFar[s.name := Effective(Synced(Find(old(db), s.name), s.defaultValue, Getenv(env, s.name)))]
      ensures !ok ==> db == old(db)
      ensures OthersUntouched(old(db), db, {s.name})
      ensures forall n: string :: n != s.name ==> Find(db, n) == Find(old(db), n)
      ensures InSync(old(db), old(db), s, env) ==> db == old(db)
    {
      collected := soFar;
      var value := Getenv(env, s.name);
      var k := SettingKey(s.name);
      if s.name in w.readDown {
        return false, collected;
      }
      if k !in db.objects {
        var newSetting := Stored("", s.defaultValue);
        if value != "" {
          newSetting := newSetting.(value := value);
        }
        if newSetting.value == "" {
          collected := collected[s.name := newSetting.defaultValue];
        } else {
          collected := collected[s.name := newSetting.value];
        }
        var reply := ApiStore.Create(db, k, newSetting, (), s.name !in w.writeDown);
        db := reply.db;
        return reply.result.Success?, collected;
      }
      var obj := db.objects[k];
      var update := false;
      if obj.meta.defaultValue != s.defaultValue {
        obj := obj.(meta := obj.meta.(defaultValue := s.defaultValue));
        update := true;
      }
      if value != "" && obj.meta.value != value {
        obj := obj.(meta := obj.meta.(value := value));
        update := true;
      }
      if obj.meta.value == "" {
        collected := collected[s.name := obj.meta.defaultValue];
      } else {
        collected := collected[s.name := obj.meta.value];
      }
      if update {
        var reply := Update(db, k, obj, s.name !in w.writeDown);
        db := reply.db;
        return reply.result.Success?, collected;
      }
      return true, collected;
    }

    /** The map is ranged over in any order. On an error some settings are registered and `fallback` is kept. */
    method SetAll(settings: map<string, Setting>, w: Weather) returns (ok: bool)
      requires Keyed(settings)
      modifies this
      ensures ok ==> forall name :: name in settings ==> InSync(old(db), db, settings[name], env)
      ensures ok ==> fallback.Keys == settings.Keys && forall name :: name in settings ==>
        Remembered(db, fallback, name)
      ensures !ok ==> fallback == old(fallback)
      ensures !ok ==> forall name :: name in settings ==>
        InSync(old(db), db, settings[name], env) || Find(db, name) == Find(old(db), name)
      ensures OthersUntouched(old(db), db, settings.Keys)
      ensures AllInSync(old(db), settings, env) ==> db == old(db)
    {
      var collected: map<string, string> := map[];
      var todo := settings.Keys;
      while todo != {}
        invariant todo <= settings.Keys
        invariant fallback == old(fallback)
        invariant collected.Keys == settings.Keys - todo
        invariant SyncedSoFar(old(db), db, settings, env, collected)
        invariant OthersUntouched(old(db), db, settings.Keys)
        invariant AllInSync(old(db), settings, env) ==> db == old(db)
        decreases todo
      {
        var name :| name in todo;
        ghost var mid, soFar := db, collected;
        ok, collected := Register(settings[name], w, collected);
        if !ok {
          return;
        }
        SyncOneMore(old(db), mid, db, settings, env, soFar, name);
        UntouchedComposes(old(db), mid, db, settings.Keys, name);
        todo := todo - {name};
      }
      fallback := collected;
      return true;
    }
  }

  /** Nothing would change if SetAll ran now. */
  ghost predicate AllInSync(db: SettingDb, settings: map<string, Setting>, env: map<string, string>) {
    forall name :: name in settings ==> InSync(db, db, settings[name], env)
  }

  /** The settings in `collected` are in sync and remembered, the others as they were. */
  ghost predicate SyncedSoFar(before: SettingDb, db: SettingDb, settings: map<string, Setting>,
                              env: map<string, string>, collected: map<string, string>) {
    && (forall name :: name in collected && name in settings ==>
          InSync(before, db, settings[name], env) && Remembered(db, collected, name))
    && (forall name :: name !in collected ==> Find(db, name) == Find(before, name))
  }

  lemma UntouchedComposes(before: SettingDb, mid: SettingDb, after: SettingDb, names: set<string>, name: string)
    requires OthersUntouched(before, mid, names) && OthersUntouched(mid, after, {name}) && name in names
    ensures OthersUntouched(before, after, names)
  {
    forall k: ObjKey | k.ns != "" || k.name !in names
      ensures Untouched(before, after, k)
    {
      assert Untouched(before, mid, k) && Untouched(mid, after, k);
    }
  }

  lemma SyncOneMore(before: SettingDb, mid: SettingDb, db: SettingDb, settings: map<string, Setting>,
                    env: map<string, string>, collected: map<string, string>, name: string)
    requires SyncedSoFar(before, mid, settings, env, collected)
    requires name in settings && settings[name].name == name && name !in collected && Keyed(settings)
    requires InSync(mid, db, settings[name], env)
    requires forall n: string :: n != name ==> Find(db, n) == Find(mid, n)
    ensures SyncedSoFar(before, db, settings, env, collected[name := Effective(Find(db, name).value)])
  {
  }

  // ----- Lookups -----

  /** Environment, then cache, then client, then the fallback map. */
  function Answer(envValue: string, cached: Option<Stored>, client: Option<Stored>, fallback: map<string, string>,
                  name: string): string {
    if envValue != "" then envValue
    else if cached.Some? then Effective(cached.value)
    else if client.Some? then Effective(client.value)
    else if name in fallback then fallback[name] else ""
  }

  /** The first source that knows the setting decides; a stored value that is empty stands for its default. */
  lemma FirstSourceDecides(envValue: string, cached: Option<Stored>, client: Option<Stored>,
                           fallback: map<string, string>, name: string)
    ensures var answer := Answer(envValue, cached, client, fallback, name);
      if envValue != "" then answer == envValue
      else match (cached, client)
        case (Some(s), _) => answer == (if s.value != "" then s.value else s.defaultValue)
        case (None, Some(s)) => answer == (if s.value != "" then s.value else s.defaultValue)
        case (None, None) => if name in fallback then answer == fallback[name] else answer == ""
  {
  }

  /** What registration promises for a setting: environment, else the user's value, else the registered default. */
  function Promised(before: Option<Stored>, s: Setting, envValue: string): string {
    if envValue != "" then envValue
    else if before.Some? && before.value.value != "" then before.value.value
    else s.defaultValue
  }

  /** After SetAll every source gives the promised answer, whichever of them can be reached. */
  lemma EverySourceKeepsThePromise(before: SettingDb, after: SettingDb, s: Setting, env: map<string, string>,
                                   fallback: map<string, string>, cached: Option<Stored>, client: Option<Stored>)
    requires InSync(before, after, s, env)
    requires Remembered(after, fallback, s.name)
    requires (cached == None || cached == Find(after, s.name)) && (client == None || client == Find(after, s.name))
    ensures Answer(Getenv(env, s.name), cached, client, fallback, s.name) ==
            Promised(Find(before, s.name), s, Getenv(env, s.name))
    ensures Getenv(env, s.name) == "" && Find(before, s.name).Some? ==>
            Find(after, s.name).value.value == Find(before, s.name).value.value
  {
  }

  /** Registration is stable, so a second SetAll finds every setting in sync and writes nothing. */
  lemma SyncIsStable(before: SettingDb, after: SettingDb, s: Setting, env: map<string, string>)
    requires InSync(before, after, s, env)
    ensures InSync(after, after, s, env)
  {
  }

  /** Cache and client, when they answer, and the fallback map give the effective value of `name`. */
  ghost predicate SourcesAgree(db: SettingDb, fallback: map<string, string>, name: string) {
    Find(db, name).Some? &&
    forall cached, client :: cached in {None, Find(db, name)} && client in {None, Find(db, name)} ==>
      Answer("", cached, client, fallback, name) == Effective(Find(db, name).value)
  }

  /** Storing `value` leaves the effective value as it is. */
  predicate SetKeepsEffective(before: Stored, value: string) {
    Effective(before) == if value == "" then before.defaultValue else value
  }

  /**
   Set does not refresh the fallback map. So after a successful one the sources still agree exactly
   when it did not change the effective value.
   */
  lemma SourcesAgreeAfterSetIff(db: SettingDb, db': SettingDb, fallback: map<string, string>, name: string,
                                value: string)
    requires Remembered(db, fallback, name)
    requires Find(db', name) == Some(Find(db, name).value.(value := value))
    ensures SourcesAgree(db', fallback, name) <==> SetKeepsEffective(Find(db, name).value, value)
  {
    assert Answer("", None, None, fallback, name) == fallback[name];
  }

  /** Replacing the user value "debug" by "trace": cache and client give the new one, the fallback map the old one. */
  lemma ReplacedValueGoesStale(db: SettingDb, db': SettingDb, fallback: map<string, string>, name: string)
    requires Find(db, name) == Some(Stored("debug", "info")) && Remembered(db, fallback, name)
    requires Find(db', name) == Some(Stored("trace", "info"))
    ensures !SourcesAgree(db', fallback, name)
    ensures Answer("", Find(db', name), None, fallback, name) ==
      Answer("", None, Find(db', name), fallback, name) == "trace"
    ensures Answer("", None, None, fallback, name) == "debug"
  {
    assert "debug" != "trace";
    SourcesAgreeAfterSetIff(db, db', fallback, name, "trace");
  }

  // ----- The registry -----

  function WithDefault(settings: map<string, Setting>, name: string, value: string): map<string, Setting> {
    if name in settings then settings[name := settings[name].(defaultValue := value)] else settings
  }

  class Registry {
    var settings: map<string, Setting>
    var provider: Provider?

    constructor ()
      ensures settings == map[] && provider == null
    {
      settings, provider := map[], null;
    }

    method NewSetting(name: string, def: string) returns (s: Setting)
      requires Keyed(settings)
      modifies this`settings
      ensures s == Setting(name, def, false) && settings == old(settings)[name := s] && Keyed(settings)
    {
      s := Setting(name, def, false);
      settings := settings[s.name := s];
    }

    /** Before there is a provider, Set moves the default of a registered setting. */
    method Set(s: Setting, value: string, w: Weather) returns (ok: bool)
      requires Keyed(settings)
      modifies this`settings, if provider == null then {} else {provider}
      ensures provider == old(provider) && Keyed(settings)
      ensures provider == null ==> ok
      ensures provider == null ==> settings == WithDefault(old(settings), s.name, value)
      ensures settings.Keys == old(settings).Keys
      ensures forall n :: n in settings && n != s.name ==> settings[n] == old(settings)[n]
      ensures provider == null && s.name in settings ==>
        settings[s.name] == Setting(s.name, value, old(settings)[s.name].readOnly)
      ensures provider != null ==> settings == old(settings) && provider.fallback == old(provider.fallback)
      ensures provider != null && ok ==> Find(old(provider.db), s.name).Some?
      ensures provider != null && ok ==>
        Find(provider.db, s.name) == Some(Find(old(provider.db), s.name).value.(value := value))
      ensures provider != null && !ok ==> provider.db == old(provider.db)
    {
      if provider == null {
        if s.name in settings {
          settings := settings[s.name := settings[s.name].(defaultValue := value)];
        }
        return true;
      }
      ok := provider.Set(s.name, value, w);
    }

    method Get(s: Setting, cached: Option<Stored>, clientUp: bool) returns (value: string)
      ensures value ==
        if provider == null then (if s.name in settings then settings[s.name].defaultValue else "")
        else
          var client := if clientUp then Find(provider.db, s.name) else None;
          Answer(Getenv(provider.env, s.name), cached, client, provider.fallback, s.name)
    {
      if provider == null {
        return if s.name in settings then settings[s.name].defaultValue else "";
      }
      value := provider.Get(s.name, cached, clientUp);
    }

    /**
     On success Get gives the promised answer for every registered setting, whichever source
     answers, and a further SetAll would write nothing.
     */
    method SetProvider(p: Provider, w: Weather) returns (ok: bool)
      requires Keyed(settings)
      modifies this`provider, p
      ensures settings == old(settings)
      ensures !ok ==> provider == old(provider) && p.fallback == old(p.fallback)
      ensures ok ==> provider == p
      ensures ok ==> forall name :: name in settings ==>
        InSync(old(p.db), p.db, settings[name], p.env) && Remembered(p.db, p.fallback, name)
      ensures ok ==> AllInSync(p.db, settings, p.env)
      ensures ok ==> forall name, cached, client ::
        name in settings && cached in {None, Find(p.db, name)} && client in {None, Find(p.db, name)} ==>
          Answer(Getenv(p.env, name), cached, client, p.fallback, name) ==
          Promised(Find(old(p.db), name), settings[name], Getenv(p.env, name))
    {
      ok := p.SetAll(settings, w);
      if ok {
        forall name | name in settings {
          SyncIsStable(old(p.db), p.db, settings[name], p.env);
        }
        forall name, cached, client |
          name in settings && cached in {None, Find(p.db, name)} && client in {None, Find(p.db, name)} {
          EverySourceKeepsThePromise(old(p.db), p.db, settings[name], p.env, p.fallback, cached, client);
        }
        provider := p;
      }
    }
  }
}
