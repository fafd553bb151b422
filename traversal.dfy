/**
 * The navigation descriptors of pycats/traversal.py. Reading a Traversal
 * attribute through an item builds a fresh set of the target class: its
 * keywords are the item's context plus one binding, the binding key (the
 * descriptor's rename_from, or else the owner class's name in lower case)
 * mapped to the item's identity; its items are the descriptor's fixed_items,
 * or the registry's answer when those are None or empty.
 *
 * As written, `__get__` asks the owner class for `category_set`, which no
 * item class has (CategoryItem defines `_category_set`), so every access
 * raises AttributeError. NavigateAsWritten models that; Navigate and Get
 * model the evidently intended `set_directory[target]` lookup.
 */
module Traversal {
  import opened Wrappers
  import opened Strings
  import opened Derivation
  import opened CategoryItem

  /** A Traversal instance: `target`, `rename_from` and `fixed_items`. */
  datatype Link = Link(target: string, renameFrom: Option<string>, fixedItems: Option<seq<string>>)

  /** An ItemTraversal instance: the fields Traversal.__init__ set, and `target_identity`. */
  datatype ItemLink = ItemLink(base: Link, targetIdentity: string)

  /** Traversal(target, rename_this, fixed_items). */
  function MakeLink(target: string, renameThis: Option<string>, fixedItems: Option<seq<string>>): (l: Link)
    ensures l.target == target && l.renameFrom == renameThis && l.fixedItems == fixedItems
  {
    Link(target, renameThis, fixedItems)
  }

  /**
   * ItemTraversal(target, target_identity, assume_identity): the constructor
   * passes target_identity on as rename_this and assume_identity as
   * fixed_items, then also keeps target_identity.
   */
  function MakeItemLink(target: string, targetIdentity: string, assumeIdentity: Option<seq<string>>): (l: ItemLink)
    ensures l.base.target == target && l.targetIdentity == targetIdentity
    ensures l.base.renameFrom == Some(targetIdentity) && l.base.fixedItems == assumeIdentity
  {
    ItemLink(MakeLink(target, Some(targetIdentity), assumeIdentity), targetIdentity)
  }

  /** `self.rename_from if self.rename_from else owner.__name__.lower()`; "" is falsy. */
  function BindingKey(link: Link, owner: ItemClass): (k: string)
    ensures link.renameFrom.Some? && link.renameFrom.value != "" ==> k == link.renameFrom.value
    ensures link.renameFrom.None? || link.renameFrom.value == "" ==>
      |k| == |owner.name| && forall i :: 0 <= i < |k| ==> !IsUpper(k[i])
  {
    if link.renameFrom.Some? && link.renameFrom.value != "" then link.renameFrom.value
    else Lower(owner.name)
  }

  /**
   * The keywords of `x(items=..., **instance.context, **{key: identity})`:
   * two `**` expansions that repeat a keyword are a TypeError, so nothing
   * in the context is ever overwritten.
   */
  function Merge(context: Context, key: string, identity: string): (r: Result<Context>)
    ensures r.Err? <==> key in context
    ensures r.Err? ==> r.error == TypeError
    ensures r.Ok? ==> r.value.Keys == context.Keys + {key} && r.value[key] == identity
    ensures r.Ok? ==> forall k :: k in context ==> r.value[k] == context[k]
  {
    if key in context then Err(TypeError) else Ok(context[key := identity])
  }

  /**
   * `Traversal.__get__(instance, owner)` with the set class looked up as
   * `set_directory[target]`: the set it builds, or the error it raises.
   * find_items is called without a lookup name. `owner` is the class
   * Python passes to the descriptor; for an access through an instance it
   * is `type(instance)`, i.e. `instance.cls` (DefaultKeyIsItemClassKey
   * relates the two).
   */
  function Navigate(setDirectory: map<string, SetClass>, rules: seq<Rule>, link: Link, instance: Item, owner: ItemClass): (r: Result<SetValue>)
    ensures link.target !in setDirectory ==> r == Err(KeyError(link.target))
    ensures r.Ok? ==> link.target in setDirectory && r.value.cls == setDirectory[link.target]
    ensures r.Ok? ==> BindingKey(link, owner) in r.value.context
    ensures r.Ok? ==> r.value.context[BindingKey(link, owner)] == instance.identity
  {
    if link.target !in setDirectory then Err(KeyError(link.target))
    else
      match Merge(instance.context, BindingKey(link, owner), instance.identity)
      case Err(e) => Err(e)
      case Ok(kwargs) => NewSetValue(rules, setDirectory[link.target], link.fixedItems, kwargs)
  }

  /**
   * `Traversal.__get__` as written, for an owner class that does not define
   * `category_set` itself: `owner.category_set(self.target)` is evaluated
   * first, and CategoryItem only defines `_category_set`, so it raises
   * AttributeError before anything else happens.
   */
  function NavigateAsWritten(setDirectory: map<string, SetClass>, rules: seq<Rule>, link: Link, instance: Item, owner: ItemClass): (r: Result<SetValue>)
    ensures !r.Ok?
  {
    Err(AttributeError("category_set"))
  }

  /**
   * Reading the attribute: a fresh set, built from scratch on every access
   * (the descriptor keeps nothing), holding what Navigate describes.
   */
  method Get(dirs: Directories, reg: Registry, link: Link, instance: Item, owner: ItemClass) returns (r: Result<CategorySet>)
    ensures r.Ok? <==> Navigate(dirs.setDirectory, reg.derivations, link, instance, owner).Ok?
    ensures r.Ok? ==> fresh(r.value) && r.value.Valid() && r.value.iterpos == 0
    ensures r.Ok? ==> r.value.Holds(Navigate(dirs.setDirectory, reg.derivations, link, instance, owner).value)
    ensures r.Err? ==> r.error == Navigate(dirs.setDirectory, reg.derivations, link, instance, owner).error
  {
    if link.target !in dirs.setDirectory {
      return Err(KeyError(link.target));
    }
    var cls := dirs.setDirectory[link.target];
    var kwargs := Merge(instance.context, BindingKey(link, owner), instance.identity);
    if kwargs.Err? {
      return Err(kwargs.error);
    }
    r := OpenSet(reg, cls, link.fixedItems, kwargs.value);
  }

  // ---------------------------------------------------------------------
  // Properties of the navigation

  /** A target no set class is filed under is a KeyError. */
  lemma UnknownTargetRaises(setDirectory: map<string, SetClass>, rules: seq<Rule>, link: Link, instance: Item, owner: ItemClass)
    requires link.target !in setDirectory
    ensures Navigate(setDirectory, rules, link, instance, owner) == Err(KeyError(link.target))
  {
  }

  /**
   * A built set is of the class filed under the target, and its context is
   * the item's context with the binding key bound to the item's identity,
   * and nothing else.
   */
  lemma NavigateMergesContext(setDirectory: map<string, SetClass>, rules: seq<Rule>, link: Link, instance: Item, owner: ItemClass)
    requires Navigate(setDirectory, rules, link, instance, owner).Ok?
    ensures link.target in setDirectory
    ensures Navigate(setDirectory, rules, link, instance, owner).value.cls == setDirectory[link.target]
    ensures var c := Navigate(setDirectory, rules, link, instance, owner).value.context;
      c.Keys == instance.context.Keys + {BindingKey(link, owner)}
      && c[BindingKey(link, owner)] == instance.identity
      && forall k :: k in instance.context ==> c[k] == instance.context[k]
  {
    var m := Merge(instance.context, BindingKey(link, owner), instance.identity);
    assert m.Ok?;
  }

  /** A binding key the context already holds makes the access raise TypeError. */
  lemma BoundKeyCollides(setDirectory: map<string, SetClass>, rules: seq<Rule>, link: Link, instance: Item, owner: ItemClass)
    requires link.target in setDirectory && BindingKey(link, owner) in instance.context
    ensures Navigate(setDirectory, rules, link, instance, owner) == Err(TypeError)
  {
  }

  /**
   * Non-empty fixed_items become the set's items as they are, whatever the
   * registry holds; otherwise the set's items come from find_items on the
   * target's item class with the merged context.
   */
  lemma NavigateItems(setDirectory: map<string, SetClass>, rules: seq<Rule>, link: Link, instance: Item, owner: ItemClass)
    requires link.target in setDirectory
    requires Merge(instance.context, BindingKey(link, owner), instance.identity).Ok?
    requires "self" !in instance.context && "items" !in instance.context
    requires BindingKey(link, owner) != "self" && BindingKey(link, owner) != "items"
    ensures var kwargs := Merge(instance.context, BindingKey(link, owner), instance.identity).value;
      var entity := setDirectory[link.target].single.name;
      if link.fixedItems.Some? && link.fixedItems.value != [] then
        Navigate(setDirectory, rules, link, instance, owner).Ok?
        && Navigate(setDirectory, rules, link, instance, owner).value.items == link.fixedItems.value
      else
        (Navigate(setDirectory, rules, link, instance, owner).Ok? <==> Resolve(rules, entity, kwargs, None).Ok?)
        && (Resolve(rules, entity, kwargs, None).Ok? ==>
              Navigate(setDirectory, rules, link, instance, owner).value.items == Resolve(rules, entity, kwargs, None).value)
  {
    var kwargs := Merge(instance.context, BindingKey(link, owner), instance.identity).value;
    assert "self" !in kwargs && "items" !in kwargs;
  }

  /**
   * A link with a (non-empty) rename binds the renamed key, not the owner's
   * name, to the item's identity.
   */
  lemma RenamedLinkBindsRenamedKey(setDirectory: map<string, SetClass>, rules: seq<Rule>, link: Link, instance: Item, owner: ItemClass)
    requires link.renameFrom.Some? && link.renameFrom.value != ""
    requires Navigate(setDirectory, rules, link, instance, owner).Ok?
    ensures var c := Navigate(setDirectory, rules, link, instance, owner).value.context;
      link.renameFrom.value in c && c[link.renameFrom.value] == instance.identity
      && (Lower(owner.name) !in instance.context && Lower(owner.name) != link.renameFrom.value ==> Lower(owner.name) !in c)
  {
    NavigateMergesContext(setDirectory, rules, link, instance, owner);
  }

  /**
   * Without a rename, an item navigating through its own class binds the
   * key it computed for itself in __init__ (its `_identity`).
   */
  lemma DefaultKeyIsItemClassKey(link: Link, cls: ItemClass, identity: Identity, context: Context)
    requires link.renameFrom.None? || link.renameFrom.value == ""
    requires OpenItem(cls, identity, context).Ok?
    ensures BindingKey(link, cls) == OpenItem(cls, identity, context).value.classKey
  {
  }

  /**
   * Reading an ItemTraversal runs the inherited Traversal.__get__: it binds
   * the target identity (when non-empty) as the key, and uses the
   * assume_identity argument as the fixed item list.
   */
  lemma ItemLinkNavigatesAsSet(setDirectory: map<string, SetClass>, rules: seq<Rule>, target: string, targetIdentity: string,
                               assumeIdentity: Option<seq<string>>, instance: Item, owner: ItemClass)
    requires targetIdentity != ""
    requires Navigate(setDirectory, rules, MakeItemLink(target, targetIdentity, assumeIdentity).base, instance, owner).Ok?
    ensures var v := Navigate(setDirectory, rules, MakeItemLink(target, targetIdentity, assumeIdentity).base, instance, owner).value;
      targetIdentity in v.context && v.context[targetIdentity] == instance.identity
      && (assumeIdentity.Some? && assumeIdentity.value != [] ==> v.items == assumeIdentity.value)
  {
    var link := MakeItemLink(target, targetIdentity, assumeIdentity).base;
    NavigateMergesContext(setDirectory, rules, link, instance, owner);
  }

  // ---------------------------------------------------------------------
  // tests/test_categories.py, test_basic_traversal: Folder('testing').my_files

  /** The accessor of `File.derivation(None, lambda x: [])`. */
  function NoFiles(context: Context, lookupName: Option<string>): Result<seq<string>>
  {
    Ok([])
  }

  /** As written, every access raises AttributeError for an owner class that does not define `category_set`. */
  lemma AsWrittenAlwaysRaises(setDirectory: map<string, SetClass>, rules: seq<Rule>, link: Link, instance: Item, owner: ItemClass)
    ensures NavigateAsWritten(setDirectory, rules, link, instance, owner) == Err(AttributeError("category_set"))
  {
  }

  /**
   * With Folder's rule and File's identity rule registered and FileSet
   * declared, `Folder('testing').my_files` raises as written; the intended
   * lookup gives an empty FileSet whose context binds "folder" to "testing".
   */
  lemma BasicTraversalScenario(folder: ItemClass, fileSet: SetClass)
    requires folder.name == "Folder" && fileSet.single.name == "File"
    ensures var rules := [MakeRule("Folder", Some(["filesystem"]), FolderAccessor), MakeRule("File", None, NoFiles)];
      var dir := map["File" := fileSet, "FileSet" := fileSet];
      var link := MakeLink("FileSet", None, None);
      var f := NewItem(folder, StrId("testing"), map[]).value;
      NavigateAsWritten(dir, rules, link, f, folder) == Err(AttributeError("category_set"))
      && Navigate(dir, rules, link, f, folder) == Ok(SetValue(fileSet, map["folder" := "testing"], []))
  {
    var rules := [MakeRule("Folder", Some(["filesystem"]), FolderAccessor), MakeRule("File", None, NoFiles)];
    var ctx := map["folder" := "testing"];
    FolderKey();
    var dir := map["File" := fileSet, "FileSet" := fileSet];
    var link := MakeLink("FileSet", None, None);
    var f := NewItem(folder, StrId("testing"), map[]).value;
    assert f.context == map[] && f.identity == "testing";
    assert BindingKey(link, folder) == "folder";
    assert Merge(f.context, "folder", "testing") == Ok(ctx);
    assert "self" !in ctx && "items" !in ctx;
    OnlyFileIdentityRule(rules, ctx);
    assert NewSetValue(rules, fileSet, None, ctx) == Ok(SetValue(fileSet, ctx, []));
    AsWrittenAlwaysRaises(dir, rules, link, f, folder);
  }

  /** The default binding key of the class Folder. */
  lemma FolderKey()
    ensures Lower("Folder") == "folder"
  {
    assert "Folder"[1..] == "older";
  }

  /** A Folder rule and File's identity rule: File resolves through the identity rule. */
  lemma OnlyFileIdentityRule(rules: seq<Rule>, ctx: Context)
    requires |rules| == 2 && rules[0].category == "Folder" && rules[1] == Rule("File", None, NoFiles)
    ensures Resolve(rules, "File", ctx, None) == Ok([])
  {
    assert FirstMatch(rules, PerfectTier, "File", ctx, 0) == None;
    assert FirstMatch(rules, PartialTier, "File", ctx, 0) == None;
    assert FirstMatch(rules, IdentityTier, "File", ctx, 0) == Some(1);
  }
}
