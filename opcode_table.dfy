/**
 The opcode table of OverlayPluginLogLineConfig: game version -> (opcode name ->
 {opcode, size}), and the pure part of its indexer, the two-level lookup.
 */
module OpcodeTable {
  import opened Wrappers

  /** The C# `uint` of the `opcode` and `size` properties. */
  newtype uint32 = x: int | 0 <= x < 0x1_0000_0000

  /** OpcodeConfigEntry: wire opcode and expected payload size of one packet kind. */
  datatype OpcodeEntry = OpcodeEntry(opcode: uint32, size: uint32)

  /** The opcodes of one game version, by opcode name. */
  type VersionOpcodes = map<string, OpcodeEntry>

  /** The whole table, by game version. */
  type Table = map<string, VersionOpcodes>

  /** Which branch of the indexer a lookup takes. */
  datatype LookupResult =
    | NoVersion                                      // the game version could not be detected
    | UnknownVersion(version: string)                // no opcodes for that game version
    | UnknownOpcode(version: string, name: string)   // no opcode of that name for the version
    | Found(entry: OpcodeEntry)

  /** The indexer's decision: version first, then the version's sub-table, then the name. */
  function Resolve(table: Table, version: Option<string>, name: string): (r: LookupResult)
    ensures r.NoVersion? ==> version.None?
    ensures r.UnknownVersion? ==> version == Some(r.version) && r.version !in table
    ensures r.UnknownOpcode? ==>
              version == Some(r.version) && r.name == name && r.version in table && name !in table[r.version]
    ensures r.Found? ==>
              version.Some? && version.value in table && name in table[version.value] &&
              r.entry == table[version.value][name]
  {
    if version.None? then NoVersion
    else if version.value !in table then UnknownVersion(version.value)
    else if name !in table[version.value] then UnknownOpcode(version.value, name)
    else Found(table[version.value][name])
  }

  /** What the indexer hands back: the entry, or null on every failure branch. */
  function Returned(r: LookupResult): (e: Option<OpcodeEntry>)
    ensures e.Some? <==> r.Found?
    ensures r.Found? ==> e.value == r.entry
  {
    if r.Found? then Some(r.entry) else None
  }

  /** Reference view of the nested table: one map keyed by (version, name) pairs. */
  function Flatten(table: Table): map<(string, string), OpcodeEntry>
  {
    map v, n | v in table && n in table[v] :: (v, n) := table[v][n]
  }

  /** An unknown version fails the lookup whatever the table holds. */
  lemma NoVersionIgnoresTable(t1: Table, t2: Table, n1: string, n2: string)
    ensures Resolve(t1, None, n1) == Resolve(t2, None, n2) == NoVersion
  {
  }

  /**
   The four branches, each characterised in both directions: which inputs
   lead to each result.
   */
  lemma ResolveBranches(table: Table, version: Option<string>, name: string)
    ensures Resolve(table, version, name) == NoVersion <==> version.None?
    ensures Resolve(table, version, name).UnknownVersion? <==>
              version.Some? && version.value !in table
    ensures Resolve(table, version, name).UnknownVersion? ==>
              Resolve(table, version, name).version == version.value
    ensures Resolve(table, version, name).UnknownOpcode? <==>
              version.Some? && version.value in table && name !in table[version.value]
    ensures Resolve(table, version, name).UnknownOpcode? ==>
              Resolve(table, version, name) == UnknownOpcode(version.value, name)
    ensures Resolve(table, version, name).Found? <==>
              version.Some? && version.value in table && name in table[version.value]
    ensures Resolve(table, version, name).Found? ==>
              Resolve(table, version, name).entry == table[version.value][name]
  {
  }

  /**
   The nested lookup agrees with the flat (version, name) map: it succeeds exactly
   on the pairs the table holds and returns the entry stored for the pair.
   */
  lemma ResolveAgreesWithFlatten(table: Table, version: string, name: string)
    ensures Resolve(table, Some(version), name).Found? <==> (version, name) in Flatten(table)
    ensures (version, name) in Flatten(table) ==>
              Resolve(table, Some(version), name) == Found(Flatten(table)[(version, name)])
  {
    if version in table && name in table[version] {
      assert (version, name) in Flatten(table);
    }
  }

  /** The empty table (the fallback after a failed load) never finds an opcode. */
  lemma EmptyTableResolves(version: Option<string>, name: string)
    ensures Resolve(map[], version, name) ==
              if version.None? then NoVersion else UnknownVersion(version.value)
  {
  }
}
