/**
 * Items, sets and the two directories of pycats/category_item.py.
 *
 * Declaring a subclass of CategoryItem records it in `category_directory`;
 * declaring a subclass of CategorySet records it in `set_directory` under the
 * name of its item class and under its own name. An item is an identity
 * string with the keyword arguments it was opened with; a set is a list of
 * identities with a context, and it is its own iterator.
 */
module CategoryItem {
  import opened Wrappers
  import opened Strings
  import opened Derivation

  // ---------------------------------------------------------------------
  // Classes and instances

  /** A subclass of CategoryItem: its name and the `_set` attribute `set()` caches. */
  class ItemClass {
    const name: string
    var cachedSet: SetClass?

    /** A cached set class is this class's own `<Name>Set`. */
    ghost predicate Valid()
      reads this
    {
      cachedSet != null ==> cachedSet.single == this && cachedSet.name == name + "Set"
    }

    constructor (name: string)
      ensures this.name == name && cachedSet == null && Valid()
    {
      this.name := name;
      cachedSet := null;
    }
  }

  /** A subclass of CategorySet: its name and the item class in its `single` attribute. */
  class SetClass {
    const name: string
    const single: ItemClass

    constructor (name: string, single: ItemClass)
      ensures this.name == name && this.single == single
    {
      this.name := name;
      this.single := single;
    }
  }

  /** The value passed as an item's identity; the item keeps `str()` of it. */
  datatype Identity = StrId(s: string) | IntId(i: int)

  function Str(x: Identity): (s: string)
    ensures x.StrId? ==> s == x.s
    ensures x.IntId? ==> ParseInt(s) == Some(x.i)
  {
    match x
    case StrId(s) => s
    case IntId(i) => IntToStringRoundTrip(i); IntToString(i)
  }

  /** Distinct int identities give distinct identity strings. */
  lemma IntIdentitiesDistinct(i: int, j: int)
    requires i != j
    ensures Str(IntId(i)) != Str(IntId(j))
  {
    if IntToString(i) == IntToString(j) {
      IntToStringInjective(i, j);
    }
  }

  /**
   * A CategoryItem instance: its class, `_identity` (the lower-cased class
   * name), `identity` and `context`. Nothing changes it after __init__.
   */
  datatype Item = Item(cls: ItemClass, classKey: string, identity: string, context: Context)

  // ---------------------------------------------------------------------
  // Opening an item. A keyword in **context that is also a named parameter of
  // the call is a TypeError ("got multiple values for argument").

  /** The named parameters of CategoryItem.__init__(self, identity, **context). */
  const InitParams: set<string> := {"self", "identity"}

  /** The named parameters of CategoryItem.open(cls, identity, **context). */
  const OpenParams: set<string> := {"cls", "identity"}

  /** `cls(identity, **context)`: the item's fields, or the TypeError of a clashing keyword. */
  function NewItem(cls: ItemClass, identity: Identity, context: Context): (r: Result<Item>)
    ensures r.Ok? <==> forall p :: p in InitParams ==> p !in context
    ensures r.Err? ==> r.error == TypeError
    ensures r.Ok? ==> r.value.cls == cls && r.value.classKey == Lower(cls.name)
    ensures r.Ok? ==> r.value.identity == Str(identity) && r.value.context == context
  {
    if "self" in context || "identity" in context then Err(TypeError)
    else Ok(Item(cls, Lower(cls.name), Str(identity), context))
  }

  /** `cls.open(identity, **context)`, which calls `cls(identity, **context)`. */
  function OpenItem(cls: ItemClass, identity: Identity, context: Context): (r: Result<Item>)
    ensures r.Ok? <==> forall p :: p in OpenParams + InitParams ==> p !in context
    ensures r.Err? ==> r.error == TypeError
    ensures r.Ok? ==> r == NewItem(cls, identity, context)
  {
    if "cls" in context || "identity" in context then Err(TypeError)
    else NewItem(cls, identity, context)
  }

  /** A context no call rejects: it holds none of the parameter names above. */
  predicate PlainContext(context: Context)
  {
    "self" !in context && "cls" !in context && "identity" !in context
  }

  /**
   * The identity an item keeps is `str()` of what it was given: a string is
   * kept as it is, and an int is written in decimal and can be read back.
   */
  lemma ItemIdentityIsStr(cls: ItemClass, identity: Identity, context: Context)
    requires PlainContext(context)
    ensures OpenItem(cls, identity, context).Ok?
    ensures identity.StrId? ==> OpenItem(cls, identity, context).value.identity == identity.s
    ensures identity.IntId? ==> ParseInt(OpenItem(cls, identity, context).value.identity) == Some(identity.i)
    ensures OpenItem(cls, identity, context).value.context == context
  {
    if identity.IntId? {
      IntToStringRoundTrip(identity.i);
    }
  }

  // ---------------------------------------------------------------------
  // Building a set

  /** The value a newly built CategorySet holds: its class, context and items. */
  datatype SetValue = SetValue(cls: SetClass, context: Context, items: seq<string>)

  /** The named parameters of CategorySet.__init__(self, items=None, **context). */
  const SetInitParams: set<string> := {"self", "items"}

  /**
   * The items CategorySet.__init__ stores: a non-empty `items` as given,
   * otherwise what find_items returns for the item class's name.
   */
  function ResolveItems(rules: seq<Rule>, entity: string, items: Option<seq<string>>, context: Context): (r: Result<seq<string>>)
    ensures items.Some? && items.value != [] ==> r == Ok(items.value)
    ensures (items.None? || items.value == []) && r.Ok? ==>
      exists i :: 0 <= i < |rules| && rules[i].category == entity && rules[i].accessor(context, None) == r
  {
    if items.Some? && items.value != [] then Ok(items.value)
    else Resolve(rules, entity, context, None)
  }

  /** `cls(items=items, **kwargs)` for a set class `cls`. */
  function NewSetValue(rules: seq<Rule>, cls: SetClass, items: Option<seq<string>>, kwargs: Context): (r: Result<SetValue>)
    ensures ("self" in kwargs || "items" in kwargs) ==> r == Err(TypeError)
    ensures r.Ok? ==> r.value.cls == cls && r.value.context == kwargs
  {
    if "self" in kwargs || "items" in kwargs then Err(TypeError)
    else
      match ResolveItems(rules, cls.single.name, items, kwargs)
      case Ok(xs) => Ok(SetValue(cls, kwargs, xs))
      case Err(e) => Err(e)
  }

  /** A non-empty explicit item list is kept exactly, and no rule is consulted. */
  lemma ExplicitItemsKept(rules: seq<Rule>, other: seq<Rule>, cls: SetClass, xs: seq<string>, kwargs: Context)
    requires xs != [] && "self" !in kwargs && "items" !in kwargs
    ensures NewSetValue(rules, cls, Some(xs), kwargs) == Ok(SetValue(cls, kwargs, xs))
    ensures NewSetValue(rules, cls, Some(xs), kwargs) == NewSetValue(other, cls, Some(xs), kwargs)
  {
  }

  /**
   * Without items (None or an empty list) the set's items are the accessor
   * result of the rule the three tiers select for the item class's name, and
   * building the set fails with find_items' error when no rule matches.
   */
  lemma MissingItemsResolve(rules: seq<Rule>, cls: SetClass, items: Option<seq<string>>, kwargs: Context)
    requires items.None? || items.value == []
    requires "self" !in kwargs && "items" !in kwargs
    ensures Winner(rules, cls.single.name, kwargs).None? <==>
      NewSetValue(rules, cls, items, kwargs) == Err(NoDerivation(cls.single.name))
      && forall u, j :: 0 <= u < |Tiers| && 0 <= j < |rules| ==> !Matches(Tiers[u], rules[j], cls.single.name, kwargs)
    ensures Winner(rules, cls.single.name, kwargs).Some? ==>
      var i := Winner(rules, cls.single.name, kwargs).value;
      i < |rules| && rules[i].category == cls.single.name
      && match rules[i].accessor(kwargs, None)
         case Ok(xs) => NewSetValue(rules, cls, items, kwargs) == Ok(SetValue(cls, kwargs, xs))
         case Err(e) => NewSetValue(rules, cls, items, kwargs) == Err(e)
  {
    NoWinnerIffNoMatch(rules, cls.single.name, kwargs);
    if Winner(rules, cls.single.name, kwargs).Some? {
      WinnerHasCategory(rules, cls.single.name, kwargs);
    }
  }

  // ---------------------------------------------------------------------
  // A set instance

  class CategorySet {
    const cls: SetClass
    const context: Context
    const items: seq<string>
    var iterpos: nat

    /** The cursor never runs past the end of the items. */
    ghost predicate Valid()
      reads this
    {
      iterpos <= |items|
    }

    /** This set holds the class, context and items of `v`. */
    predicate Holds(v: SetValue)
    {
      cls == v.cls && context == v.context && items == v.items
    }

    constructor (v: SetValue)
      ensures Holds(v) && iterpos == 0 && Valid()
    {
      cls := v.cls;
      context := v.context;
      items := v.items;
      iterpos := 0;
    }

    /** The identities the iterator has still to yield. */
    function Remaining(): seq<string>
      reads this
      requires Valid()
    {
      items[iterpos..]
    }

    /** __iter__: the set is its own iterator. */
    method Iter() returns (it: CategorySet)
      ensures it == this
    {
      it := this;
    }

    /**
     * __next__: the item at the cursor, opened with the set's context, and
     * the cursor one further; StopIteration, and no change, at the end.
     * The cursor moves before the item is opened, so it also moves when
     * opening raises.
     */
    method Next() returns (r: Result<Item>)
      requires Valid()
      modifies this
      ensures Valid()
      ensures old(iterpos) < |items| ==> iterpos == old(iterpos) + 1 && r == GetItem(old(iterpos))
      ensures old(iterpos) == |items| ==> iterpos == old(iterpos) && r == Err(StopIteration)
      ensures Remaining() == if old(Remaining()) == [] then [] else old(Remaining())[1..]
    {
      if |items| > iterpos {
        var item := items[iterpos];
        iterpos := iterpos + 1;
        r := OpenItem(cls.single, StrId(item), context);
      } else {
        r := Err(StopIteration);
      }
    }

    /** __call__: open the item with this identity, or ValueError when it is not in the set. */
    function Call(identity: string): (r: Result<Item>)
      ensures identity !in items ==> r == Err(ValueError)
      ensures r.Ok? ==> identity in items && r.value.identity == identity
      ensures r.Ok? ==> r.value.context == context && r.value.cls == cls.single
    {
      if identity in items then OpenItem(cls.single, StrId(identity), context)
      else Err(ValueError)
    }

    /** __getitem__ with an int index; Python counts a negative index from the end. */
    function GetItem(i: int): (r: Result<Item>)
      ensures r.Ok? ==> r.value.identity in items && r.value.context == context && r.value.cls == cls.single
    {
      if 0 <= i < |items| then OpenItem(cls.single, StrId(items[i]), context)
      else if -|items| <= i < 0 then OpenItem(cls.single, StrId(items[|items| + i]), context)
      else Err(IndexError)
    }

    /**
     * Looking an identity up succeeds exactly when it is one of the items
     * (for a context that no call rejects), and gives the item of that
     * identity with the set's context.
     */
    lemma CallSucceedsIffMember(identity: string)
      requires PlainContext(context)
      ensures Call(identity).Ok? <==> identity in items
      ensures identity !in items ==> Call(identity) == Err(ValueError)
      ensures Call(identity).Ok? ==>
        Call(identity).value.identity == identity && Call(identity).value.context == context
        && Call(identity).value.cls == cls.single
    {
    }

    /**
     * Indexing and lookup agree: `s[i]` is `s(s.items[i])`, a negative index
     * names the same item as the index |items| higher, and every index out
     * of range is an IndexError.
     */
    lemma GetItemAgreesWithCall(i: int)
      ensures 0 <= i < |items| ==> GetItem(i) == Call(items[i])
      ensures 0 <= i < |items| ==> GetItem(i - |items|) == GetItem(i)
      ensures GetItem(i) == Err(IndexError) <==> !(-|items| <= i < |items|)
    {
    }
  }

  /**
   * `cls(items=items, **kwargs)`: a fresh set with the cursor at 0, holding
   * exactly what NewSetValue describes, or the error it raises.
   */
  method OpenSet(reg: Registry, cls: SetClass, items: Option<seq<string>>, kwargs: Context) returns (r: Result<CategorySet>)
    ensures r.Ok? <==> NewSetValue(reg.derivations, cls, items, kwargs).Ok?
    ensures r.Ok? ==> fresh(r.value) && r.value.Valid() && r.value.iterpos == 0
    ensures r.Ok? ==> r.value.Holds(NewSetValue(reg.derivations, cls, items, kwargs).value)
    ensures r.Err? ==> r.error == NewSetValue(reg.derivations, cls, items, kwargs).error
  {
    if "self" in kwargs || "items" in kwargs {
      return Err(TypeError);
    }
    var xs: seq<string>;
    if items.Some? && items.value != [] {
      xs := items.value;
    } else {
      var found := reg.FindItems(cls.single.name, kwargs, None);
      if found.Err? {
        return Err(found.error);
      }
      xs := found.value;
    }
    var s := new CategorySet(SetValue(cls, kwargs, xs));
    return Ok(s);
  }

  // ---------------------------------------------------------------------
  // The module-level dicts category_directory and set_directory

  class Directories {
    var categoryDirectory: map<string, ItemClass>
    var setDirectory: map<string, SetClass>

    /**
     * Every item class is filed under its own name; every set class under
     * its own name or under the name of its item class.
     */
    ghost predicate Valid()
      reads this
    {
      (forall k :: k in categoryDirectory ==> categoryDirectory[k].name == k)
      && (forall k :: k in setDirectory ==> setDirectory[k].name == k || setDirectory[k].single.name == k)
    }

    constructor ()
      ensures categoryDirectory == map[] && setDirectory == map[] && Valid()
    {
      categoryDirectory := map[];
      setDirectory := map[];
    }

    /**
     * CategoryItem.__init_subclass__ for `class <name>(CategoryItem)`: a new
     * class filed under its name, replacing any earlier class of that name.
     */
    method DeclareItemClass(name: string) returns (c: ItemClass)
      requires Valid()
      modifies this
      ensures Valid() && fresh(c) && c.Valid()
      ensures c.name == name && c.cachedSet == null
      ensures categoryDirectory == old(categoryDirectory)[name := c]
      ensures setDirectory == old(setDirectory)
    {
      c := new ItemClass(name);
      categoryDirectory := categoryDirectory[name := c];
    }

    /**
     * CategorySet.__init_subclass__ for a set class `name` whose `single` is
     * `single`: filed under the item class's name and under its own name.
     */
    method DeclareSetClass(name: string, single: ItemClass) returns (s: SetClass)
      requires Valid()
      modifies this
      ensures Valid() && fresh(s)
      ensures s.name == name && s.single == single
      ensures setDirectory == old(setDirectory)[single.name := s][name := s]
      ensures categoryDirectory == old(categoryDirectory)
    {
      s := new SetClass(name, single);
      setDirectory := setDirectory[single.name := s][name := s];
    }

    /**
     * CategoryItem.set(): the first call makes and declares `<Name>Set` and
     * caches it on the item class; every later call returns that same class
     * and changes nothing.
     */
    method SetOf(c: ItemClass) returns (s: SetClass)
      requires Valid() && c.Valid()
      modifies this, c
      ensures Valid() && c.Valid()
      ensures c.cachedSet == s && s.single == c && s.name == c.name + "Set"
      ensures old(c.cachedSet) != null ==> s == old(c.cachedSet) && setDirectory == old(setDirectory)
      ensures old(c.cachedSet) == null ==> fresh(s) && setDirectory == old(setDirectory)[c.name := s][c.name + "Set" := s]
      ensures categoryDirectory == old(categoryDirectory)
    {
      if c.cachedSet == null {
        s := DeclareSetClass(c.name + "Set", c);
        c.cachedSet := s;
      } else {
        s := c.cachedSet;
      }
    }

    /** CategoryItem._category_set: the set class filed under `name`, or KeyError. */
    function CategorySetFor(name: string): (r: Result<SetClass>)
      reads this
      requires Valid()
      ensures r.Ok? <==> name in setDirectory
      ensures r.Err? ==> r.error == KeyError(name)
      ensures r.Ok? ==> r.value.name == name || r.value.single.name == name
    {
      if name in setDirectory then Ok(setDirectory[name]) else Err(KeyError(name))
    }
  }

  /** CategoryItem.derivation: register a rule under the item class's name. */
  method Derive(reg: Registry, c: ItemClass, context: Option<seq<string>>, accessor: Accessor)
    requires reg.Valid()
    modifies reg
    ensures reg.Valid()
    ensures reg.derivations == old(reg.derivations) + [MakeRule(c.name, context, accessor)]
  {
    var _ := reg.Register(c.name, context, accessor);
  }

  // ---------------------------------------------------------------------
  // The scenario of tests/test_categories.py, test_basic_derivation

  /** The accessor `lambda x: [f"/home/{x['filesystem']}/files"]`. */
  function FolderAccessor(context: Context, lookupName: Option<string>): Result<seq<string>>
  {
    if "filesystem" in context then Ok(["/home/" + context["filesystem"] + "/files"])
    else Err(KeyError("filesystem"))
  }

  /** `FolderSet(filesystem='ourfs').items == ['/home/ourfs/files']`, with the rule perfectly matched. */
  lemma FolderSetScenario(folderSet: SetClass)
    requires folderSet.single.name == "Folder"
    ensures NewSetValue([MakeRule("Folder", Some(["filesystem"]), FolderAccessor)], folderSet, None,
                        map["filesystem" := "ourfs"]).Ok?
    ensures NewSetValue([MakeRule("Folder", Some(["filesystem"]), FolderAccessor)], folderSet, None,
                        map["filesystem" := "ourfs"]).value.items == ["/home/ourfs/files"]
  {
    var ctx := map["filesystem" := "ourfs"];
    var rule := MakeRule("Folder", Some(["filesystem"]), FolderAccessor);
    SortSingleton("filesystem");
    assert rule == Rule("Folder", Some(["filesystem"]), FolderAccessor);
    FolderRuleWins(rule, ctx);
    FolderAccessorOurfs(ctx);
    assert Resolve([rule], "Folder", ctx, None) == Ok(["/home/ourfs/files"]);
  }

  /** The context {filesystem} matches the rule on ["filesystem"] perfectly, so it wins. */
  lemma FolderRuleWins(rule: Rule, ctx: Context)
    requires rule == Rule("Folder", Some(["filesystem"]), FolderAccessor)
    requires ctx == map["filesystem" := "ourfs"]
    ensures Winner([rule], "Folder", ctx) == Some(0)
  {
    assert ctx.Keys == {"filesystem"};
    SortedSetEquals(ctx.Keys, ["filesystem"]);
    assert PerfectMatch(rule, "Folder", ctx);
    assert FirstMatch([rule], PerfectTier, "Folder", ctx, 0) == Some(0);
  }

  /** The Folder accessor on filesystem "ourfs". */
  lemma FolderAccessorOurfs(ctx: Context)
    requires ctx == map["filesystem" := "ourfs"]
    ensures FolderAccessor(ctx, None) == Ok(["/home/ourfs/files"])
  {
    assert ctx["filesystem"] == "ourfs";
    assert "/home/" + "ourfs" + "/files" == "/home/ourfs/files";
  }
}
