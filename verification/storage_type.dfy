/** The closed catalogue of supported storage engines: three remote servers
    and three local file databases, each with a display name and the name
    of its schema file. */
module StorageTypes {
  import opened JavaText

  datatype StorageType = MySQL | MariaDB | PostgreSQL | SQLite | H2 | HSQL

  /** `StorageType.values()`: every engine, in declaration order. */
  const Values: seq<StorageType> := [MySQL, MariaDB, PostgreSQL, SQLite, H2, HSQL]

  /** Position of an engine in `Values`. */
  function Ordinal(t: StorageType): (i: nat)
    ensures i < |Values| && Values[i] == t
  {
    match t
    case MySQL => 0
    case MariaDB => 1
    case PostgreSQL => 2
    case SQLite => 3
    case H2 => 4
    case HSQL => 5
  }

  /** The display name given at construction, which `toString` returns. */
  function Name(t: StorageType): (r: string)
    ensures |r| >= 2
    ensures forall i :: 0 <= i < |r| ==> 'A' <= r[i] <= 'Z' || 'a' <= r[i] <= 'z' || '0' <= r[i] <= '9'
  {
    match t
    case MySQL => "MySQL"
    case MariaDB => "MariaDB"
    case PostgreSQL => "PostgreSQL"
    case SQLite => "SQLite"
    case H2 => "H2"
    case HSQL => "HSQL"
  }

  /** `schemaPath`: the schema file name given at construction. */
  function SchemaPath(t: StorageType): (r: string)
    ensures EndsWith(r, ".sql") && |r| > |".sql"|
  {
    match t
    case MySQL => "mariadb.sql"
    case MariaDB => "mariadb.sql"
    case PostgreSQL => "postgre.sql"
    case SQLite => "sqlite.sql"
    case H2 => "h2.sql"
    case HSQL => "hsql.sql"
  }

  /** `isLocal`: the engine keeps its data in a local file rather than on a
      server. */
  predicate IsLocal(t: StorageType)
    ensures IsLocal(t) <==> t in {SQLite, H2, HSQL}
    ensures !IsLocal(t) <==> t in {MySQL, MariaDB, PostgreSQL}
  {
    match t
    case MySQL | MariaDB | PostgreSQL => false
    case SQLite | H2 | HSQL => true
  }

  /** Some engine's display name equals `name` ignoring case. */
  predicate Names(name: string) {
    exists t: StorageType :: EqualsIgnoreCase(name, Name(t))
  }

  /** The first engine of `ts` whose display name equals `name` ignoring
      case, or `def` when there is none. */
  function FindByName(name: string, ts: seq<StorageType>, def: StorageType): (r: StorageType)
    ensures r in ts || r == def
    ensures (exists i :: 0 <= i < |ts| && EqualsIgnoreCase(name, Name(ts[i]))) ==> r in ts && EqualsIgnoreCase(name, Name(r))
    ensures (forall i :: 0 <= i < |ts| ==> !EqualsIgnoreCase(name, Name(ts[i]))) ==> r == def
  {
    if ts == [] then def
    else if EqualsIgnoreCase(name, Name(ts[0])) then ts[0]
    else FindByName(name, ts[1..], def)
  }

  /** `parse`: the engine whose display name equals `name` ignoring case,
      falling back to `def`. */
  function Parse(name: string, def: StorageType): (r: StorageType)
    ensures Names(name) ==> EqualsIgnoreCase(name, Name(r))
    ensures !Names(name) ==> r == def
  {
    assert Names(name) ==> exists i :: 0 <= i < |Values| && EqualsIgnoreCase(name, Name(Values[i])) by {
      if Names(name) {
        var t: StorageType :| EqualsIgnoreCase(name, Name(t));
        assert Values[Ordinal(t)] == t;
      }
    }
    FindByName(name, Values, def)
  }

  /** Display names differ in length, so no two engines' names are equal even
      ignoring case: the first match `parse` finds is the only one. */
  lemma NamesDistinctIgnoringCase(t: StorageType, u: StorageType)
    ensures EqualsIgnoreCase(Name(t), Name(u)) <==> t == u
  {
    EqualsIgnoreCaseIsEquivalence(Name(t), Name(t), Name(t));
  }

  /** `parse` returns exactly the engine whose name matches ignoring case,
      and the default exactly when no name matches. */
  lemma ParseCharacterization(name: string, def: StorageType, t: StorageType)
    ensures Parse(name, def) == t <==> EqualsIgnoreCase(name, Name(t)) || (!Names(name) && t == def)
  {
    var r := Parse(name, def);
    if EqualsIgnoreCase(name, Name(t)) {
      assert Names(name);
      NamesDistinctIgnoringCase(r, t);
      EqualsIgnoreCaseIsEquivalence(Name(r), name, Name(t));
      EqualsIgnoreCaseIsEquivalence(name, Name(r), Name(t));
    }
  }

  /** Round trip: parsing an engine's display name gives that engine back,
      whatever the default. */
  lemma ParseName(t: StorageType, def: StorageType)
    ensures Parse(Name(t), def) == t
  {
    EqualsIgnoreCaseIsEquivalence(Name(t), Name(t), Name(t));
    ParseCharacterization(Name(t), def, t);
  }

  /** `parse` only looks at its input up to case: two inputs equal ignoring
      case parse to the same engine. */
  lemma ParseIgnoresCase(name: string, other: string, def: StorageType)
    requires EqualsIgnoreCase(name, other)
    ensures Parse(name, def) == Parse(other, def)
  {
    var r := Parse(name, def);
    forall t: StorageType
      ensures EqualsIgnoreCase(name, Name(t)) <==> EqualsIgnoreCase(other, Name(t))
    {
      EqualsIgnoreCaseIsEquivalence(name, other, Name(t));
      EqualsIgnoreCaseIsEquivalence(other, name, Name(t));
    }
    ParseCharacterization(name, def, r);
    ParseCharacterization(other, def, r);
  }

  /** Lower-case input finds the engine. */
  lemma ParseLowerCase(def: StorageType)
    ensures Parse("mysql", def) == MySQL
  {
    assert EqualsIgnoreCase("mysql", Name(MySQL)) by {
      assert ToUpperCase('m') == 'M' && ToUpperCase('y') == 'Y' && ToUpperCase('s') == 'S';
      assert ToUpperCase('q') == 'Q' && ToUpperCase('l') == 'L';
    }
    ParseCharacterization("mysql", def, MySQL);
  }

  /** Matching follows Java's case mapping beyond ASCII: a dotless 'ı'
      matches the 'I' of "MariaDB". */
  lemma ParseDotlessI(def: StorageType)
    ensures Parse("mar\U{0131}adb", def) == MariaDB
  {
    assert EqualsIgnoreCase("mar\U{0131}adb", Name(MariaDB)) by {
      assert ToUpperCase('\U{0131}') == 'I' == ToUpperCase('I');
      assert ToUpperCase('m') == 'M' && ToUpperCase('a') == 'A' && ToUpperCase('r') == 'R';
      assert ToUpperCase('d') == 'D' && ToUpperCase('b') == 'B';
    }
    ParseCharacterization("mar\U{0131}adb", def, MariaDB);
  }

  /** No engine is called "unknown", in any case: only MariaDB's name has
      seven chars, and its first one is not a 'u'. */
  lemma UnknownIsNoName()
    ensures !Names("unknown")
  {
    forall t: StorageType ensures !EqualsIgnoreCase("unknown", Name(t)) {
      if t == MariaDB {
        assert !CharEqualsIgnoreCase('u', 'M') by {
          CharEqualsIgnoreCaseFold('u', 'M');
        }
        assert "unknown"[0] == 'u' && Name(t)[0] == 'M';
      } else {
        assert |Name(t)| != |"unknown"|;
      }
    }
  }

  /** Text that is no engine's name gives the default. */
  lemma ParseUnknown(def: StorageType)
    ensures Parse("unknown", def) == def
  {
    UnknownIsNoName();
  }

  /** MySQL and MariaDB share the schema file "mariadb.sql"; every other
      pair of engines has distinct schema files. */
  lemma SharedSchemaPath(t: StorageType, u: StorageType)
    ensures SchemaPath(t) == SchemaPath(u) <==> t == u || {t, u} == {MySQL, MariaDB}
    ensures SchemaPath(MySQL) == "mariadb.sql"
  {
    if t != u && SchemaPath(t) == SchemaPath(u) {
      assert |SchemaPath(t)| == |SchemaPath(u)|;
    }
  }
}
