/** The static module catalog (`MODULES`) and its key list
    (`AVAILABLE_MODULES`), read by the session store, the input component
    and, through the set of modules it accepts, the backend. */
module Catalog {
  import opened Optional

  /** One catalog entry; `material` is the optional (misspelt `matirial`)
      document name. */
  datatype ModuleInfo = ModuleInfo(
    shortName: string,
    longName: string,
    moduleCode: string,
    year: string,
    material: Option<string>)

  const Modules: map<string, ModuleInfo> := map[
    "CTSE" := ModuleInfo("CTSE", "Current Trends in Software Engineering", "SE4010", "4th", Some("CTSE.pdf")),
    "IUP" := ModuleInfo("IUP", "Image Understanding and Processing", "IT4130", "4th", Some("IUP.pdf"))
  ]

  /** `Object.keys(MODULES)`: the keys in insertion order. */
  const AvailableModules: seq<string> := ["CTSE", "IUP"]

  /** `MODULES[m]`: the entry, or nothing for a name outside the catalog. */
  function Lookup(m: string): (r: Option<ModuleInfo>)
    ensures r.Some? <==> m in Modules
    ensures r.Some? ==> r.value == Modules[m]
  {
    if m in Modules then Some(Modules[m]) else None
  }

  /** The key list names every catalog entry exactly once, and each entry's
      short name is its own key. */
  lemma AvailableModulesAreTheKeys()
    ensures |AvailableModules| == |Modules|
    ensures forall m :: m in AvailableModules <==> m in Modules
    ensures forall i, j :: 0 <= i < j < |AvailableModules| ==> AvailableModules[i] != AvailableModules[j]
    ensures forall m :: m in Modules ==> Modules[m].shortName == m
  {
    assert Modules.Keys == {"CTSE", "IUP"};
  }

  /** The two catalog entries, field by field. */
  lemma CatalogEntries()
    ensures Lookup("CTSE") == Some(ModuleInfo("CTSE", "Current Trends in Software Engineering", "SE4010", "4th", Some("CTSE.pdf")))
    ensures Lookup("IUP") == Some(ModuleInfo("IUP", "Image Understanding and Processing", "IT4130", "4th", Some("IUP.pdf")))
    ensures Lookup("") == None
  {
  }
}
