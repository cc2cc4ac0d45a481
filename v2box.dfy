/** `Register`, `Migrate` and `Version` of `v2box.go`: the package's registry of migrations
    and version strings, keyed by configuration type. */
module V2Box {
  import opened Wrappers
  import opened SingBox

  /** The raw configuration a migration reads. */
  type Configuration = seq<bv8>

  /** A registered migration: the options it produces, or its error. */
  type Migration = Configuration -> Result<Options>

  const AutoType := "auto"
  const PreferredType := "v2ray"
  const UnknownVersion := "unknown"
  const DetectError := "failed to detect configuration type"

  /** `migrationMap` and `versionMap`. */
  class Registry {
    var migrations: map<string, Migration>
    var versions: map<string, string>

    constructor ()
      ensures migrations == map[] && versions == map[]
    {
      migrations := map[];
      versions := map[];
    }

    /** `Register`: inserts or overwrites both entries of the name. */
    method Register(typeName: string, versionString: string, migration: Migration)
      modifies this
      ensures migrations == old(migrations)[typeName := migration]
      ensures versions == old(versions)[typeName := versionString]
    {
      migrations := migrations[typeName := migration];
      versions := versions[typeName := versionString];
    }

    /** `Migrate`: "auto" tries the migrations in map order and returns the first success;
        an explicit name runs exactly its migration. */
    method Migrate(typeName: string, configuration: Configuration) returns (r: Result<Options>)
      ensures typeName == AutoType ==>
        (r.Ok? <==> exists name :: name in migrations && migrations[name](configuration).Ok?) &&
        (r.Ok? ==> exists name :: name in migrations && migrations[name](configuration) == r) &&
        (r.Err? ==> r.error == DetectError)
      ensures typeName != AutoType && typeName !in migrations ==> r == Err("unknown configuration type: " + typeName)
      ensures typeName != AutoType && typeName in migrations ==> r == migrations[typeName](configuration)
    {
      if typeName == AutoType {
        var remaining := migrations.Keys;
        while remaining != {}
          invariant remaining <= migrations.Keys
          invariant forall name :: name in migrations.Keys - remaining ==> migrations[name](configuration).Err?
          decreases remaining
        {
          var name :| name in remaining;
          var options := migrations[name](configuration);
          if options.Ok? {
            return options;
          }
          remaining := remaining - {name};
        }
        return Err(DetectError);
      }
      if typeName !in migrations {
        return Err("unknown configuration type: " + typeName);
      }
      r := migrations[typeName](configuration);
    }

    /** `Version`: "auto" prefers the "v2ray" entry, then any entry, then "unknown"; an
        explicit name gives its entry or "unknown". */
    method Version(typeName: string) returns (v: string)
      ensures typeName == AutoType && PreferredType in versions ==> v == versions[PreferredType]
      ensures typeName == AutoType && PreferredType !in versions && versions != map[] ==> v in versions.Values
      ensures typeName == AutoType && versions == map[] ==> v == UnknownVersion
      ensures typeName != AutoType ==> v == (if typeName in versions then versions[typeName] else UnknownVersion)
    {
      if typeName == AutoType {
        if PreferredType in versions {
          return versions[PreferredType];
        }
        if versions != map[] {
          var name :| name in versions;
          return versions[name];
        }
        return UnknownVersion;
      }
      if typeName !in versions {
        return UnknownVersion;
      }
      v := versions[typeName];
    }
  }

  /** After registering a name, an explicit migration of it runs the new migration and its
      version is the new string, whatever was registered before. */
  method RegisterThenLookup(registry: Registry, typeName: string, versionString: string, migration: Migration,
                            configuration: Configuration) returns (r: Result<Options>, v: string)
    requires typeName != AutoType
    modifies registry
    ensures r == migration(configuration) && v == versionString
  {
    registry.Register(typeName, versionString, migration);
    r := registry.Migrate(typeName, configuration);
    v := registry.Version(typeName);
  }
}
