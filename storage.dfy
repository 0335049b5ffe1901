/**
 * The browser-storage backed lists of templates and library materials. Each list
 * lives under one storage key; every operation reads the whole list, changes it
 * and writes it back. On the server (no `window`) reads give [] and writes do nothing.
 */
module Storage {
  import opened Base
  import opened Types

  /**
   * One stored list. `item` is what the storage key holds, already parsed (`None` when the
   * key is unset); `key` reads an element's id; `apply` is the spread `{...element, ...updates}`.
   */
  class Store<T, P> {
    const inBrowser: bool
    const key: T -> string
    const apply: (T, P) -> T
    var item: Option<seq<T>>

    constructor (inBrowser: bool, key: T -> string, apply: (T, P) -> T, item: Option<seq<T>>)
      ensures this.inBrowser == inBrowser && this.key == key && this.apply == apply && this.item == item
    {
      this.inBrowser := inBrowser;
      this.key := key;
      this.apply := apply;
      this.item := item;
    }

    /** `getAll()`: the stored list; [] on the server or when nothing is stored. */
    function GetAll(): (r: seq<T>)
      reads this
      ensures !inBrowser || item.None? ==> r == []
    {
      if !inBrowser then [] else match item
        case None => []
        case Some(xs) => xs
    }

    /** `save(xs)`: writes the list in the browser, does nothing on the server. */
    method Save(xs: seq<T>)
      modifies this
      ensures inBrowser ==> item == Some(xs)
      ensures !inBrowser ==> item == old(item)
      ensures inBrowser ==> GetAll() == xs
    {
      if inBrowser {
        item := Some(xs);
      }
    }

    /** `add(x)`: appends at the end, after every element already there, duplicates included. */
    method Add(x: T)
      modifies this
      ensures inBrowser ==> GetAll() == old(GetAll()) + [x]
      ensures !inBrowser ==> item == old(item)
    {
      var xs := GetAll();
      xs := xs + [x];
      Save(xs);
    }

    /**
     * `update(id, updates)`: merges the updates into the first element with the id only;
     * an unknown id writes nothing.
     */
    method Update(id: string, updates: P)
      modifies this
      ensures FindIndex(old(GetAll()), key, id).None? ==> item == old(item)
      ensures inBrowser && FindIndex(old(GetAll()), key, id).Some? ==>
                var i := FindIndex(old(GetAll()), key, id).value;
                GetAll() == old(GetAll())[i := apply(old(GetAll())[i], updates)]
      ensures !inBrowser ==> item == old(item)
    {
      var xs := GetAll();
      var index := FindIndex(xs, key, id);
      if index.Some? {
        xs := xs[index.value := apply(xs[index.value], updates)];
        Save(xs);
      }
    }

    /** `delete(id)`: keeps exactly the elements without the id, in their order, and always writes. */
    method Delete(id: string)
      modifies this
      ensures inBrowser ==> item == Some(Filter(old(GetAll()), x => key(x) != id))
      ensures !inBrowser ==> item == old(item)
    {
      var xs := Filter(GetAll(), x => key(x) != id);
      Save(xs);
    }

    /** `getById(id)`: the first stored element with the id, or undefined. */
    function GetById(id: string): (r: Option<T>)
      reads this
      ensures r == Find(GetAll(), key, id)
    {
      Find(GetAll(), key, id)
    }
  }

  /** After an update only position i can differ, and ids elsewhere are untouched. */
  lemma UpdateOnlyFirst<T, P>(xs: seq<T>, key: T -> string, apply: (T, P) -> T, id: string, updates: P)
    requires FindIndex(xs, key, id).Some?
    ensures var i := FindIndex(xs, key, id).value;
            var ys := xs[i := apply(xs[i], updates)];
            |ys| == |xs| && (forall j :: 0 <= j < |xs| && j != i ==> ys[j] == xs[j])
            && (forall j :: i < j < |xs| && key(xs[j]) == id ==> ys[j] == xs[j])
  {
  }

  /** After a delete no element carries the id, and every element without it is still there. */
  lemma DeleteRemovesAll<T>(xs: seq<T>, key: T -> string, id: string)
    ensures var ys := Filter(xs, x => key(x) != id);
            (forall j :: 0 <= j < |ys| ==> key(ys[j]) != id)
            && (forall j :: 0 <= j < |xs| && key(xs[j]) != id ==> xs[j] in ys)
            && FindIndex(ys, key, id).None?
  {
  }

  /** Appending never hides an element: the lookup after `add(x)` finds an earlier element with x's id first. */
  lemma {:induction false} FindAfterAdd<T>(xs: seq<T>, key: T -> string, x: T)
    ensures Find(xs + [x], key, key(x)) == (if Find(xs, key, key(x)).Some? then Find(xs, key, key(x)) else Some(x))
  {
    FindIndexAppend(xs, key, key(x), x);
  }

  // ----- the two stores -----

  /**
   * `Partial<Template>`: a key that is present overrides, even with an undefined value,
   * so optional fields are `Option<Option<_>>`.
   */
  datatype TemplatePatch = TemplatePatch(
    id: Option<string>,
    name: Option<string>,
    ttype: Option<TemplateType>,
    tags: Option<seq<string>>,
    category: Option<Option<string>>,
    content: Option<TemplateContent>,
    createdAt: Option<int>,
    usedCount: Option<Option<int>>)

  function Over<V>(patch: Option<V>, current: V): V
  {
    if patch.Some? then patch.value else current
  }

  /** `{...t, ...updates}`. */
  function ApplyTemplatePatch(t: Template, u: TemplatePatch): Template
  {
    Template(Over(u.id, t.id), Over(u.name, t.name), Over(u.ttype, t.ttype), Over(u.tags, t.tags),
             Over(u.category, t.category), Over(u.content, t.content), Over(u.createdAt, t.createdAt),
             Over(u.usedCount, t.usedCount))
  }

  /** A whole template given as the updates, every key present. */
  function FullPatch(t: Template): TemplatePatch
  {
    TemplatePatch(Some(t.id), Some(t.name), Some(t.ttype), Some(t.tags), Some(t.category), Some(t.content),
                  Some(t.createdAt), Some(t.usedCount))
  }

  /** An empty patch keeps the template; a whole template as the patch replaces it; absent keys keep their field. */
  lemma TemplatePatchFields(t: Template, u: TemplatePatch, n: Template)
    ensures ApplyTemplatePatch(t, TemplatePatch(None, None, None, None, None, None, None, None)) == t
    ensures ApplyTemplatePatch(t, FullPatch(n)) == n
    ensures u.name.None? ==> ApplyTemplatePatch(t, u).name == t.name
    ensures u.id.None? ==> ApplyTemplatePatch(t, u).id == t.id
    ensures u.usedCount.None? ==> ApplyTemplatePatch(t, u).usedCount == t.usedCount
    ensures u.usedCount == Some(None) ==> ApplyTemplatePatch(t, u).usedCount.None?
  {
  }

  /** `Partial<Material>` over the bookkeeping fields. */
  datatype MaterialPatch = MaterialPatch(usedCount: Option<Option<int>>, lastUsedAt: Option<Option<int>>)

  /** `{...m, ...updates}`. */
  function ApplyMaterialPatch(m: Material, u: MaterialPatch): Material
  {
    Material(m.product, Over(u.usedCount, m.usedCount), Over(u.lastUsedAt, m.lastUsedAt))
  }

  function TemplateId(t: Template): string { t.id }
  function MaterialId(m: Material): string { m.product.id }

  /** `storage.templates`, over what the 'templates' key holds. */
  method TemplateStore(inBrowser: bool, item: Option<seq<Template>>) returns (s: Store<Template, TemplatePatch>)
    ensures fresh(s) && s.inBrowser == inBrowser && s.item == item
    ensures s.key == TemplateId && s.apply == ApplyTemplatePatch
  {
    s := new Store(inBrowser, TemplateId, ApplyTemplatePatch, item);
  }

  /** `storage.materials`, over what the 'materials' key holds: the same semantics, keyed by the product id. */
  method MaterialStore(inBrowser: bool, item: Option<seq<Material>>) returns (s: Store<Material, MaterialPatch>)
    ensures fresh(s) && s.inBrowser == inBrowser && s.item == item
    ensures s.key == MaterialId && s.apply == ApplyMaterialPatch
  {
    s := new Store(inBrowser, MaterialId, ApplyMaterialPatch, item);
  }
}
