/**
 * The material library (server/src/services/MaterialService.ts): a list of
 * materials kept in memory, added to, updated and deleted by id. Writing the list
 * to `materials.json` is not modelled; reading it is a parameter of `Load`.
 */
module Materials {
  import opened Wrappers

  datatype Operation = Cut | Engrave | Raster

  datatype Material = Material(
    id: string,
    name: string,
    operation: Operation,
    speed: real,
    power: real,
    passes: real,
    notes: Option<string>)

  /** A material without its id, as `add` receives it. */
  datatype NewMaterial = NewMaterial(
    name: string,
    operation: Operation,
    speed: real,
    power: real,
    passes: real,
    notes: Option<string>)

  /** `Partial<Material>`: the fields present in an update. */
  datatype MaterialUpdate = MaterialUpdate(
    id: Option<string>,
    name: Option<string>,
    operation: Option<Operation>,
    speed: Option<real>,
    power: Option<real>,
    passes: Option<real>,
    notes: Option<string>)

  /** `{ ...material, id }` */
  function WithId(m: NewMaterial, id: string): (r: Material)
    ensures r.id == id && r.name == m.name && r.operation == m.operation
    ensures r.speed == m.speed && r.power == m.power && r.passes == m.passes && r.notes == m.notes
  {
    Material(id, m.name, m.operation, m.speed, m.power, m.passes, m.notes)
  }

  /** `{ ...m, ...updates }`: every field the update carries replaces the material's. */
  function Overlay(m: Material, u: MaterialUpdate): (r: Material)
    ensures r.id == u.id.GetOr(m.id) && r.name == u.name.GetOr(m.name)
    ensures r.operation == u.operation.GetOr(m.operation)
    ensures r.speed == u.speed.GetOr(m.speed) && r.power == u.power.GetOr(m.power)
    ensures r.passes == u.passes.GetOr(m.passes)
    ensures r.notes == (if u.notes.Some? then u.notes else m.notes)
  {
    Material(
      u.id.GetOr(m.id),
      u.name.GetOr(m.name),
      u.operation.GetOr(m.operation),
      u.speed.GetOr(m.speed),
      u.power.GetOr(m.power),
      u.passes.GetOr(m.passes),
      if u.notes.Some? then u.notes else m.notes)
  }

  /** Applying the same update twice is applying it once. */
  lemma OverlayIdempotent(m: Material, u: MaterialUpdate)
    ensures Overlay(Overlay(m, u), u) == Overlay(m, u)
  {
  }

  /** `findIndex(m => m.id === id)`: the first position holding that id. */
  function FindIndex(ms: seq<Material>, id: string): (r: Option<nat>)
    ensures r.None? <==> forall k :: 0 <= k < |ms| ==> ms[k].id != id
    ensures r.Some? ==> r.value < |ms| && ms[r.value].id == id
    ensures r.Some? ==> forall k :: 0 <= k < r.value ==> ms[k].id != id
  {
    if ms == [] then None
    else if ms[0].id == id then Some(0)
    else
      match FindIndex(ms[1..], id)
      case None => None
      case Some(k) => Some(k + 1)
  }

  /** `filter(m => m.id !== id)` */
  function WithoutId(ms: seq<Material>, id: string): (r: seq<Material>)
    ensures |r| <= |ms|
  {
    if ms == [] then []
    else (if ms[0].id != id then [ms[0]] else []) + WithoutId(ms[1..], id)
  }

  /** Deleting keeps exactly the materials with another id. */
  lemma {:induction false} WithoutIdMembers(ms: seq<Material>, id: string)
    ensures forall m :: m in WithoutId(ms, id) <==> m in ms && m.id != id
  {
    if ms != [] {
      WithoutIdMembers(ms[1..], id);
      assert ms == [ms[0]] + ms[1..];
    }
  }

  /** Deleting keeps the other materials in their relative order. */
  lemma {:induction false} WithoutIdAppend(a: seq<Material>, b: seq<Material>, id: string)
    ensures WithoutId(a + b, id) == WithoutId(a, id) + WithoutId(b, id)
  {
    if a == [] {
      assert a + b == b;
    } else {
      var h := if a[0].id != id then [a[0]] else [];
      calc {
        WithoutId(a + b, id);
        { assert (a + b)[0] == a[0]; assert (a + b)[1..] == a[1..] + b; }
        h + WithoutId(a[1..] + b, id);
        { WithoutIdAppend(a[1..], b, id); }
        h + (WithoutId(a[1..], id) + WithoutId(b, id));
        h + WithoutId(a[1..], id) + WithoutId(b, id);
        WithoutId(a, id) + WithoutId(b, id);
      }
    }
  }

  /** Deleting removes something exactly when the id occurs. */
  lemma {:induction false} WithoutIdShrinks(ms: seq<Material>, id: string)
    ensures |WithoutId(ms, id)| < |ms| <==> exists k :: 0 <= k < |ms| && ms[k].id == id
  {
    if ms != [] {
      WithoutIdShrinks(ms[1..], id);
      if ms[0].id != id {
        assert forall k :: 1 <= k < |ms| ==> ms[k] == ms[1..][k - 1];
        if exists k :: 0 <= k < |ms| && ms[k].id == id {
          var k :| 0 <= k < |ms| && ms[k].id == id;
          assert ms[1..][k - 1].id == id;
        }
      }
    }
  }

  /** Deleting an id that occurs nowhere changes nothing. */
  lemma {:induction false} WithoutAbsentId(ms: seq<Material>, id: string)
    requires forall k :: 0 <= k < |ms| ==> ms[k].id != id
    ensures WithoutId(ms, id) == ms
  {
    if ms != [] {
      WithoutAbsentId(ms[1..], id);
    }
  }

  /** Deleting a just-added material whose id was new gives back the list before the add. */
  lemma AddThenDelete(ms: seq<Material>, m: NewMaterial, id: string)
    requires forall k :: 0 <= k < |ms| ==> ms[k].id != id
    ensures WithoutId(ms + [WithId(m, id)], id) == ms
  {
    WithoutIdAppend(ms, [WithId(m, id)], id);
    WithoutAbsentId(ms, id);
    assert WithoutId([WithId(m, id)], id) == [];
  }

  class MaterialService {
    var materials: seq<Material>

    constructor ()
      ensures materials == []
    {
      materials := [];
    }

    /** Reads the stored list; `None` is a missing or unreadable file, which leaves the list empty. */
    method Load(stored: Option<seq<Material>>)
      modifies this
      ensures materials == stored.GetOr([])
    {
      match stored
      case Some(ms) => materials := ms;
      case None => materials := [];
    }

    /** The current list. */
    function GetAll(): (ms: seq<Material>)
      reads this
      ensures |ms| == |materials|
      ensures forall k :: 0 <= k < |ms| ==> ms[k] == materials[k]
    {
      materials
    }

    /** Appends the material under the id `now` (the clock's reading as text) and returns it. */
    method Add(material: NewMaterial, now: string) returns (m: Material)
      modifies this
      ensures m == WithId(material, now)
      ensures materials == old(materials) + [m]
    {
      m := Material(now, material.name, material.operation, material.speed, material.power, material.passes, material.notes);
      materials := materials + [m];
    }

    /**
     * Overlays the update on the first material with that id and returns it; with
     * no such material returns `None` and changes nothing.
     */
    method Update(id: string, updates: MaterialUpdate) returns (r: Option<Material>)
      modifies this
      ensures FindIndex(old(materials), id).None? ==> r.None? && materials == old(materials)
      ensures FindIndex(old(materials), id).Some? ==>
        var idx := FindIndex(old(materials), id).value;
        && r == Some(Overlay(old(materials)[idx], updates))
        && materials == old(materials)[idx := r.value]
    {
      var idx := FindIndex(materials, id);
      if idx.None? {
        return None;
      }
      materials := materials[idx.value := Overlay(materials[idx.value], updates)];
      r := Some(materials[idx.value]);
    }

    /** Removes every material with that id; true exactly when one was removed. */
    method Delete(id: string) returns (removed: bool)
      modifies this
      ensures materials == WithoutId(old(materials), id)
      ensures removed <==> exists k :: 0 <= k < |old(materials)| && old(materials)[k].id == id
    {
      var initialLen := |materials|;
      WithoutIdShrinks(materials, id);
      materials := WithoutId(materials, id);
      removed := |materials| != initialLen;
    }
  }
}
