/**
 * TrackingMetadataRegistry: the process-wide map from an entity type to the names
 * of its id field and version field, filled by Register and read by GetOrThrow.
 * Nothing else in the core reads it: TrackingEntry always looks for "version"
 * and Attach always uses "_id".
 */
module Registry {
  import opened Wrappers

  /** A CLR type, by its full name. */
  type TypeName = string

  datatype TrackingMetadata = TrackingMetadata(idField: string, versionField: string)

  /** GetOrThrow's InvalidOperationException: the type was never registered. */
  datatype RegistryError = NotTracked(typeName: TypeName)

  /** The lookup GetOrThrow performs on a given map. */
  function LookupMetadata(m: map<TypeName, TrackingMetadata>, t: TypeName): (r: Result<TrackingMetadata, RegistryError>)
    ensures r.Ok? <==> t in m
    ensures r.Ok? ==> r.value == m[t]
    ensures r.Err? ==> r.error == NotTracked(t)
  {
    if t in m then Ok(m[t]) else Err(NotTracked(t))
  }

  class TrackingMetadataRegistry {
    var metadata: map<TypeName, TrackingMetadata>

    constructor()
      ensures metadata == map[]
    {
      metadata := map[];
    }

    /** Register: sets (or overwrites) the entry for `t`; every other type keeps its lookup. */
    method Register(t: TypeName, idField: string, versionField: string)
      modifies this
      ensures metadata == old(metadata)[t := TrackingMetadata(idField, versionField)]
      ensures LookupMetadata(metadata, t) == Ok(TrackingMetadata(idField, versionField))
      ensures forall u :: u != t ==> LookupMetadata(metadata, u) == LookupMetadata(old(metadata), u)
    {
      metadata := metadata[t := TrackingMetadata(idField, versionField)];
    }

    /** GetOrThrow: the registered metadata, or an error for a type never registered. */
    method GetOrThrow(t: TypeName) returns (r: Result<TrackingMetadata, RegistryError>)
      ensures r == LookupMetadata(metadata, t)
    {
      if t in metadata {
        r := Ok(metadata[t]);
      } else {
        r := Err(NotTracked(t));
      }
    }
  }

  /** What a sequence of Register calls leaves behind: the last registration of each type wins. */
  function AfterRegistrations(m: map<TypeName, TrackingMetadata>, regs: seq<(TypeName, TrackingMetadata)>): map<TypeName, TrackingMetadata>
  {
    if regs == [] then m
    else
      var last := regs[|regs| - 1];
      AfterRegistrations(m, regs[..|regs| - 1])[last.0 := last.1]
  }

  /** A type no registration names keeps the lookup it had before them. */
  lemma {:induction false} UnregisteredUnchanged(m: map<TypeName, TrackingMetadata>, regs: seq<(TypeName, TrackingMetadata)>, t: TypeName)
    requires forall i :: 0 <= i < |regs| ==> regs[i].0 != t
    ensures LookupMetadata(AfterRegistrations(m, regs), t) == LookupMetadata(m, t)
  {
    if regs != [] {
      var init := regs[..|regs| - 1];
      assert forall i :: 0 <= i < |init| ==> init[i] == regs[i];
      UnregisteredUnchanged(m, init, t);
    }
  }

  /** A registered type's lookup is its last registration, whatever came before. */
  lemma {:induction false} LastRegistrationWins(m: map<TypeName, TrackingMetadata>, regs: seq<(TypeName, TrackingMetadata)>, i: nat)
    requires i < |regs|
    requires forall j :: i < j < |regs| ==> regs[j].0 != regs[i].0
    ensures LookupMetadata(AfterRegistrations(m, regs), regs[i].0) == Ok(regs[i].1)
  {
    if i < |regs| - 1 {
      var init := regs[..|regs| - 1];
      assert forall j :: 0 <= j < |init| ==> init[j] == regs[j];
      LastRegistrationWins(m, init, i);
    }
  }
}
