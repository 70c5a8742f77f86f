/** The in-memory access-key store (pkg/store/accesskey/memory/store.go). */
module KeyStore {
  import opened Common
  import opened Permissions

  datatype KeyRecord = KeyRecord(
    id: Did,
    tenant: Did,
    name: string,
    principal: Option<PrincipalId>, // bound to a principal, or a service key
    permissions: seq<string>,       // a service key's
    buckets: seq<Did>,              // a service key's scope, empty for all
    expires: Option<nat>)

  /** A service key's name is unique within the tenant, a principal-bound key's
      within its principal. */
  predicate SameName(a: KeyRecord, b: KeyRecord) {
    a.tenant == b.tenant && a.name == b.name && a.principal == b.principal
  }

  /** What a listing selects: each filter given restricts it. */
  datatype Filter = Filter(principal: Option<PrincipalId>, principals: Option<set<PrincipalId>>, ids: Option<set<Did>>)

  predicate Selected(rec: KeyRecord, tenant: Did, f: Filter) {
    && rec.tenant == tenant
    && (f.principal.Some? ==> rec.principal == f.principal)
    && (f.principals.Some? ==> rec.principal.Some? && rec.principal.value in f.principals.value)
    && (f.ids.Some? ==> rec.id in f.ids.value)
  }

  ghost predicate DistinctIds(recs: seq<KeyRecord>) {
    forall i, j :: 0 <= i < j < |recs| ==> recs[i].id != recs[j].id
  }

  function Ids(recs: seq<KeyRecord>): seq<Did> {
    seq(|recs|, i requires 0 <= i < |recs| => recs[i].id)
  }

  /** Validate: an input's own consistency. */
  predicate Consistent(rec: KeyRecord) {
    && rec.id != UNDEF && rec.tenant != UNDEF && rec.name != "" && UNDEF !in rec.buckets
    && (rec.principal.Some? ==> rec.principal.value != "" && rec.permissions == [] && rec.buckets == [])
  }

  /** The guard a store may be built with refuses a principal that is not live. */
  predicate Admits(guard: Option<set<PrincipalId>>, rec: KeyRecord) {
    guard.Some? && rec.principal.Some? ==> rec.principal.value in guard.value
  }

  class MemoryKeys {
    var keys: map<Did, KeyRecord>

    /** Records are filed under their ids, and no two of a tenant and principal
        share a name. */
    ghost predicate Valid() reads this {
      && (forall id :: id in keys ==> keys[id].id == id)
      && forall a, b :: a in keys && b in keys && a != b ==> !SameName(keys[a], keys[b])
    }

    constructor ()
      ensures Valid() && keys == map[]
    {
      keys := map[];
    }

    /** guard is the live principals, when the store is built with one. */
    method Add(rec: KeyRecord, guard: Option<set<PrincipalId>>) returns (err: Option<Error>)
      requires Valid()
      modifies this
      ensures Valid()
      ensures err == Some(InvalidArgument) <==>
        || rec.id == UNDEF || rec.tenant == UNDEF || rec.name == "" || UNDEF in rec.buckets
        || (rec.principal.Some?
            && (rec.principal.value == "" || rec.permissions != [] || rec.buckets != [] || (guard.Some? && rec.principal.value !in guard.value)))
      ensures err == Some(RecordExists) <==>
        && err != Some(InvalidArgument)
        && (|| rec.id in old(keys)
            || exists id ::
                 && id in old(keys)
                 && old(keys)[id].tenant == rec.tenant && old(keys)[id].name == rec.name && old(keys)[id].principal == rec.principal)
      ensures err.None? || err == Some(InvalidArgument) || err == Some(RecordExists)
      ensures keys == if err.Some? then old(keys) else old(keys)[rec.id := rec]
    {
      if !Consistent(rec) || !Admits(guard, rec) { return Some(InvalidArgument); }
      if rec.id in keys { return Some(RecordExists); }
      if id :| id in keys && SameName(keys[id], rec) { return Some(RecordExists); }
      keys := keys[rec.id := rec];
      err := None;
    }

    method Get(id: Did) returns (r: Result<KeyRecord>)
      ensures r == if id in keys then Ok(keys[id]) else Err(RecordNotFound)
    {
      r := if id in keys then Ok(keys[id]) else Err(RecordNotFound);
    }

    /** ListByTenant: every selected record once, in no order. */
    method ListByTenant(tenant: Did, f: Filter) returns (recs: seq<KeyRecord>)
      requires Valid()
      ensures DistinctIds(recs)
      ensures forall rec :: rec in recs <==> rec.id in keys && keys[rec.id] == rec && Selected(rec, tenant, f)
      ensures forall rec :: rec in recs <==>
        && rec.id in keys && keys[rec.id] == rec && rec.tenant == tenant
        && (f.principal.Some? ==> rec.principal == f.principal)
        && (f.principals.Some? ==> exists p :: p in f.principals.value && rec.principal == Some(p))
        && (f.ids.Some? ==> rec.id in f.ids.value)
    {
      recs := [];
      var rest := keys.Keys;
      while rest != {}
        invariant rest <= keys.Keys
        invariant DistinctIds(recs)
        invariant forall rec :: rec in recs <==>
          rec.id in keys && rec.id !in rest && keys[rec.id] == rec && Selected(rec, tenant, f)
        decreases rest
      {
        var id :| id in rest;
        rest := rest - {id};
        if Selected(keys[id], tenant, f) {
          assert forall rec :: rec in recs ==> rec.id != id;
          recs := recs + [keys[id]];
        }
      }
    }

    method Delete(id: Did)
      requires Valid()
      modifies this
      ensures Valid() && keys == old(keys) - {id}
    {
      keys := keys - {id};
    }
  }
}
