/** The syscall registry: one flat dictionary and one per version, kept in step, and the
    dispatcher's version gate over them. */
module SyscallRegistry {
  import opened Prelude
  import opened SyscallNames
  import opened TwoLevelMap

  datatype Entry = Entry(handler: string, capability: string)

  type Flat = map<string, Entry>
  type Versioned = map<string, map<string, Entry>>

  /** The registry's own split: like parsing, but empty parts are returned rather than refused. */
  function Split(key: string): Option<(string, string)> {
    if !HasPrefix(key) then None
    else
      var rest := key[|PREFIX|..];
      var dot := FindDot(rest);
      if dot == |rest| then None else Some((rest[..dot], rest[dot + 1..]))
  }

  /** The parts the registry files a key under, when it has both. */
  function Parts(key: string): Option<(string, string)> {
    match Split(key)
    case Some((version, action)) => if version != "" && action != "" then Some((version, action)) else None
    case None => None
  }

  /** The two ways of taking a name apart agree. */
  lemma PartsAgreeWithParse(key: string)
    ensures Parts(key).Some? <==> Parse(key).Ok?
    ensures Parts(key).Some? ==> Parse(key).value == Parts(key).value
  {
  }

  lemma PartsInjective()
    ensures Injective(Parts)
  {
    forall j, k | Parts(j).Some? && Parts(j) == Parts(k) ensures j == k {
      PartsAgreeWithParse(j);
      PartsAgreeWithParse(k);
      PrintParsed(j);
      PrintParsed(k);
    }
  }

  // ---- the reference view: parse every flat key -----------------------------

  function VersionsOf(flat: Flat): set<string> {
    set name | name in flat && Parse(name).Ok? :: Parse(name).value.0
  }

  function ActionNames(flat: Flat, version: string): set<string> {
    set name | name in flat && Parse(name).Ok? && Parse(name).value.0 == version :: Parse(name).value.1
  }

  function ActionsOf(flat: Flat, version: string): map<string, Entry> {
    map a | a in ActionNames(flat, version) && FullName(version, a) in flat :: flat[FullName(version, a)]
  }

  function VersionedOf(flat: Flat): Versioned {
    map v | v in VersionsOf(flat) :: ActionsOf(flat, v)
  }

  lemma FiledUnderParts(flat: Flat, name: string)
    requires name in flat && Parts(name).Some?
    ensures var (v, a) := Parts(name).value;
            v in VersionedOf(flat) && a in VersionedOf(flat)[v] && VersionedOf(flat)[v][a] == flat[name]
  {
    PartsAgreeWithParse(name);
    PrintParsed(name);
    assert Parse(name).value.1 in ActionNames(flat, Parse(name).value.0);
  }

  lemma ReferenceNames(flat: Flat, v: string, a: string)
    requires v in VersionedOf(flat) && a in VersionedOf(flat)[v]
    ensures Names(Parts, flat, v, a)
  {
    var name :| name in flat && Parse(name).Ok? && Parse(name).value.0 == v && Parse(name).value.1 == a;
    PartsAgreeWithParse(name);
    assert Parts(name) == Some((v, a));
  }

  lemma ReferenceNotEmpty(flat: Flat, v: string)
    requires v in VersionedOf(flat)
    ensures VersionedOf(flat)[v] != map[]
  {
    var name :| name in flat && Parse(name).Ok? && Parse(name).value.0 == v;
    PartsAgreeWithParse(name);
    FiledUnderParts(flat, name);
  }

  lemma ReferenceFiles(flat: Flat)
    ensures Files(Parts, flat, VersionedOf(flat))
  {
    var two := VersionedOf(flat);
    forall name | name in flat && Parts(name).Some?
      ensures var (v, a) := Parts(name).value; v in two && a in two[v] && two[v][a] == flat[name]
    {
      FiledUnderParts(flat, name);
    }
  }

  lemma ReferenceAgrees(flat: Flat)
    ensures Agrees(Parts, flat, VersionedOf(flat))
  {
    ReferenceFiles(flat);
    var two := VersionedOf(flat);
    forall v, a | v in two && a in two[v] ensures Names(Parts, flat, v, a) {
      ReferenceNames(flat, v, a);
    }
    forall v | v in two ensures two[v] != map[] {
      ReferenceNotEmpty(flat, v);
    }
  }

  /** The reference view agrees with the dictionary, so it is the only view that does. */
  lemma AgreesIsReference(flat: Flat, versioned: Versioned)
    ensures Agrees(Parts, flat, versioned) <==> versioned == VersionedOf(flat)
  {
    ReferenceAgrees(flat);
    if Agrees(Parts, flat, versioned) {
      AgreesUnique(Parts, flat, versioned, VersionedOf(flat));
    }
  }

  // ---- writes ----------------------------------------------------------------

  /** A write of the flat key, and the code's write of the two-level view, keep the view equal to
      the one obtained by parsing every flat key. */
  lemma SetKeepsView(flat: Flat, key: string, value: Entry)
    ensures PutKey(Parts, VersionedOf(flat), key, value) == VersionedOf(flat[key := value])
  {
    PartsInjective();
    AgreesIsReference(flat, VersionedOf(flat));
    PutAgrees(Parts, flat, VersionedOf(flat), key, value);
    AgreesIsReference(flat[key := value], PutKey(Parts, VersionedOf(flat), key, value));
  }

  lemma DropKeepsView(flat: Flat, key: string)
    ensures DropKey(Parts, VersionedOf(flat), key) == VersionedOf(flat - {key})
  {
    PartsInjective();
    AgreesIsReference(flat, VersionedOf(flat));
    DropAgrees(Parts, flat, VersionedOf(flat), key);
    AgreesIsReference(flat - {key}, DropKey(Parts, VersionedOf(flat), key));
  }

  /** The registry object. Every write keeps the two views in step. */
  class VersionedSyscallRegistry {
    var flat: Flat
    var versioned: Versioned

    ghost predicate Valid()
      reads this
    {
      versioned == VersionedOf(flat)
    }

    constructor ()
      ensures Valid() && flat == map[]
    {
      flat, versioned := map[], map[];
    }

    method Set(key: string, value: Entry)
      requires Valid()
      modifies this
      ensures Valid() && flat == old(flat)[key := value]
    {
      SetKeepsView(flat, key, value);
      flat := flat[key := value];
      Link(key, value);
    }

    method Link(key: string, value: Entry)
      modifies this`versioned
      ensures versioned == PutKey(Parts, old(versioned), key, value)
    {
      var parts := Parts(key);
      if parts.Some? {
        var (version, action) := parts.value;
        if version !in versioned {
          versioned := versioned[version := map[]];
        }
        versioned := versioned[version := versioned[version][action := value]];
      }
    }

    method Unlink(key: string)
      modifies this`versioned
      ensures versioned == DropKey(Parts, old(versioned), key)
    {
      var parts := Parts(key);
      if parts.Some? && parts.value.0 in versioned {
        var (version, action) := parts.value;
        versioned := versioned[version := versioned[version] - {action}];
        if versioned[version] == map[] {
          assert forall a :: a in old(versioned)[version].Keys ==> a == action || a in versioned[version];
          versioned := versioned - {version};
        } else {
          var a :| a in versioned[version];
          assert a in old(versioned)[version].Keys && a != action;
        }
      }
      assert versioned == DropKey(Parts, old(versioned), key);
    }

    /** False stands for KeyError. */
    method Delete(key: string) returns (ok: bool)
      requires Valid()
      modifies this
      ensures Valid() && ok == (key in old(flat)) && flat == old(flat) - {key}
    {
      if key !in flat {
        assert flat - {key} == flat;
        return false;
      }
      DropKeepsView(flat, key);
      flat := flat - {key};
      Unlink(key);
      ok := true;
    }

    /** None stands for KeyError: the key is absent and no default was given. With a default the
        versioned view is touched although the key is absent, to no effect. */
    method Pop(key: string, default: Option<Entry>) returns (value: Option<Entry>)
      requires Valid()
      modifies this
      ensures Valid() && flat == old(flat) - {key}
      ensures value == if key in old(flat) then Some(old(flat)[key]) else default
    {
      value := if key in flat then Some(flat[key]) else default;
      if value == None {
        assert flat - {key} == flat;
        return;
      }
      DropKeepsView(flat, key);
      flat := flat - {key};
      Unlink(key);
    }

    /** The available versions the dispatcher asks for. */
    method Versions() returns (versions: set<string>)
      requires Valid()
      ensures versions == VersionsOf(flat)
    {
      versions := versioned.Keys;
    }
  }

  // ---- the dispatcher's gate ---------------------------------------------------

  datatype Lookup = Found(name: string, entry: Entry) | UnknownVersion | UnknownSyscall(name: string)

  const UNKNOWN := "unknown"

  /** Parse, resolve the version against the available ones, rewrite the name when the fallback
      chose another version, look it up. A name that does not parse skips the version check. */
  function GateLookup(flat: Flat, available: set<string>, name: string, fallback: bool): Lookup {
    var parsed := Parse(name);
    var version := if parsed.Ok? then parsed.value.0 else UNKNOWN;
    var resolved := ResolveVersion(version, available, fallback);
    if version != UNKNOWN && resolved.Err? && version !in available then UnknownVersion
    else
      var key :=
        if version != UNKNOWN && resolved.Ok? && resolved.value != version && parsed.Ok?
        then FullName(resolved.value, parsed.value.1) else name;
      if key in flat then Found(key, flat[key]) else UnknownSyscall(key)
  }

  /** With the two views in agreement the gate finds every registered name, under that name,
      whatever the fallback setting. */
  lemma GateFindsRegistered(flat: Flat, name: string, fallback: bool)
    requires name in flat
    ensures GateLookup(flat, VersionsOf(flat), name, fallback) == Found(name, flat[name])
  {
  }

  /** Without fallback it finds nothing else. */
  lemma GateFindsOnlyRegistered(flat: Flat, name: string)
    ensures GateLookup(flat, VersionsOf(flat), name, false).Found? <==> name in flat
  {
  }

  /** With fallback, a name of an unavailable version reaches exactly the stable syscall of the
      same action; the version "unknown", which the gate uses for names that do not parse, has no
      fallback. */
  lemma FallbackReachesStable(flat: Flat, name: string)
    requires Parse(name).Ok? && Parse(name).value.0 !in VersionsOf(flat)
    ensures var stable := "sys." + "v1" + "." + Parse(name).value.1;
            var r := GateLookup(flat, VersionsOf(flat), name, true);
            if Parse(name).value.0 != UNKNOWN && stable in flat then r == Found(stable, flat[stable]) else !r.Found?
  {
    var action := Parse(name).value.1;
    var stable := FullName(LATEST_STABLE, action);
    PrintParsed(name);
    ParsePrinted(LATEST_STABLE, action);
    assert stable in flat ==> LATEST_STABLE in VersionsOf(flat);
  }
}
