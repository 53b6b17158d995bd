/**
 * What the manifest handle computes over `package.json`'s two dependency
 * tables, `dependencies` (runtime) and `devDependencies`: removing a package,
 * looking up its declared version, and deciding whether it is installed.
 */
module Manifest {
  import opened Wrappers
  import opened Json

  const Dependencies := "dependencies"
  const DevDependencies := "devDependencies"

  /** `obj[field]` as a JavaScript condition (absent reads as `undefined`, which is falsy). */
  predicate FieldTruthy(m: Object, field: string) {
    field in m && Truthy(m[field])
  }

  /** `delete table[name]`: removes the key of an object; other values are left as they are. */
  function DeleteKey(v: Json, name: string): Json {
    match v
    case Obj(f) => Obj(f - {name})
    case _ => v
  }

  /** One `if (obj[field]) delete obj[field][name]` step of `removeDep`. */
  function RemoveFromField(m: Object, field: string, name: string): Object {
    if FieldTruthy(m, field) then m[field := DeleteKey(m[field], name)] else m
  }

  /**
   * The manifest after `removeDep(name)`. Without a truthy table it is the
   * manifest unchanged; the tables stay truthy, so a later call marks the handle too.
   */
  function RemoveDependency(m: Object, name: string): (r: Object)
    ensures !RemoveMarksDirty(m) ==> r == m
    ensures RemoveMarksDirty(r) == RemoveMarksDirty(m)
  {
    RemoveFromField(RemoveFromField(m, Dependencies, name), DevDependencies, name)
  }

  /** `removeDep` sets the dirty flag as soon as either table is present, removed or not. */
  predicate RemoveMarksDirty(m: Object) {
    FieldTruthy(m, Dependencies) || FieldTruthy(m, DevDependencies)
  }

  /** What `removeDep(name)` leaves in one table: the key gone from an object, anything else untouched. */
  predicate TableAfterRemove(m: Object, r: Object, field: string, name: string) {
    (field in r <==> field in m)
    && (field in m && m[field].Obj? ==> r[field] == Obj(m[field].fields - {name}) && name !in r[field].fields)
    && (field in m && !m[field].Obj? ==> r[field] == m[field])
  }

  /**
   * `removeDep(name)` deletes `name` from every dependency table that is an
   * object, keeps every other entry of those tables and every other key of the manifest.
   */
  lemma RemoveDependencyEffect(m: Object, name: string)
    ensures var r := RemoveDependency(m, name);
      r.Keys == m.Keys
      && (forall k :: k in m && k != Dependencies && k != DevDependencies ==> r[k] == m[k])
      && TableAfterRemove(m, r, Dependencies, name)
      && TableAfterRemove(m, r, DevDependencies, name)
  {
  }

  /** The error JavaScript raises for `name in x` when `x` is `undefined` or a primitive. */
  datatype TypeError = InOperatorOnNonObject(field: string)

  /**
   * `name in obj[field]`, followed by `obj[field][name]` when it holds: the entry
   * found (Some), no entry (None), or the TypeError of applying `in` to a non-object.
   */
  function InField(m: Object, field: string, name: string): Result<Option<Json>, TypeError> {
    if field !in m then Err(InOperatorOnNonObject(field))
    else
      match m[field]
      case Obj(f) => Ok(if name in f then Some(f[name]) else None)
      case Arr(_) => Ok(None)
      case _ => Err(InOperatorOnNonObject(field))
  }

  /**
   * `getVersion(name)`: the runtime table is searched first, then the dev table;
   * `null` for the empty name and for a name in neither table.
   */
  function LookupVersion(m: Object, name: string): (r: Result<Json, TypeError>)
    ensures name == "" ==> r == Ok(Null)
    ensures r.Err? ==> r.error == InOperatorOnNonObject(Dependencies) || r.error == InOperatorOnNonObject(DevDependencies)
    ensures r.Ok? && r.value != Null ==>
      (Declares(m, Dependencies, name) && r.value == m[Dependencies].fields[name])
      || (!Declares(m, Dependencies, name) && Declares(m, DevDependencies, name) && r.value == m[DevDependencies].fields[name])
  {
    if name == "" then Ok(Null)
    else
      match InField(m, Dependencies, name)
      case Err(e) => Err(e)
      case Ok(Some(v)) => Ok(v)
      case Ok(None) =>
        match InField(m, DevDependencies, name)
        case Err(e) => Err(e)
        case Ok(Some(v)) => Ok(v)
        case Ok(None) => Ok(Null)
  }

  /** `hasInstall(name)`: `getVersion(name) !== null`, the TypeError passed on. */
  function Installed(m: Object, name: string): (r: Result<bool, TypeError>)
    ensures r.Err? <==> LookupVersion(m, name).Err?
    ensures r.Ok? ==> (r.value <==> LookupVersion(m, name).value != Null)
  {
    match LookupVersion(m, name)
    case Err(e) => Err(e)
    case Ok(v) => Ok(v != Null)
  }

  /** A table that `in` can search without throwing. */
  predicate Searchable(m: Object, field: string) {
    field in m && (m[field].Obj? || m[field].Arr?)
  }

  /** `name` is a key of the table `field`, which is an object. */
  predicate Declares(m: Object, field: string, name: string) {
    field in m && m[field].Obj? && name in m[field].fields
  }

  /** A name in the runtime table is answered from it, whatever the dev table holds or lacks. */
  lemma VersionPrefersRuntime(m: Object, name: string)
    requires name != "" && Declares(m, Dependencies, name)
    ensures LookupVersion(m, name) == Ok(m[Dependencies].fields[name])
  {
  }

  /** A name only in the dev table is answered from it. */
  lemma VersionFallsBackToDev(m: Object, name: string)
    requires name != "" && Searchable(m, Dependencies) && !Declares(m, Dependencies, name)
    requires Declares(m, DevDependencies, name)
    ensures LookupVersion(m, name) == Ok(m[DevDependencies].fields[name])
  {
  }

  /** `null` for the empty name, and for a name that neither (searchable) table declares. */
  lemma VersionNullWhenUndeclared(m: Object, name: string)
    requires name == "" || (Searchable(m, Dependencies) && Searchable(m, DevDependencies)
                            && !Declares(m, Dependencies, name) && !Declares(m, DevDependencies, name))
    ensures LookupVersion(m, name) == Ok(Null)
  {
  }

  /**
   * `getVersion` throws exactly when the name is non-empty and the runtime table
   * cannot be searched, or the name is not in it and the dev table cannot be searched.
   */
  lemma VersionThrowsIff(m: Object, name: string)
    ensures LookupVersion(m, name).Err? <==>
      name != "" && (!Searchable(m, Dependencies)
                     || (!Declares(m, Dependencies, name) && !Searchable(m, DevDependencies)))
  {
  }

  /**
   * With both tables present as objects, `hasInstall` never throws and holds
   * exactly when the entry that wins the precedence is not `null`.
   */
  lemma HasInstallWhenTablesPresent(m: Object, name: string)
    requires Dependencies in m && m[Dependencies].Obj?
    requires DevDependencies in m && m[DevDependencies].Obj?
    ensures var deps, dev := m[Dependencies].fields, m[DevDependencies].fields;
      Installed(m, name) == Ok(name != "" &&
        (if name in deps then deps[name] != Null else name in dev && dev[name] != Null))
  {
  }
}
