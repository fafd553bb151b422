# pycats: rule registry, items, sets and traversals

A Dafny model of the resolution engine of `pycats`, a small Python library
for navigating between named categories of things. It has three parts.

- **Rule registry** (`derivation.dfy`, module `Derivation`). This is the module-level list
  `derivations` of `Derivation` rules. Each rule has a category name, either a sorted
  list of required context keys or `None` (an identity rule), and an accessor.
  `find_items` tries three tiers in order: perfect match, then partial match, then
  identity match. Within a tier the rule registered first wins. If no rule matches,
  it raises. The registry is a class whose `seq<Rule>` only grows.
  `Registry.FindItems` is the nested loop with its early return. It is proved
  equal to the function `Resolve`, which picks the rule index `Winner`, and the
  lemmas are about `Winner`.
- **Items, sets and directories** (`category_item.dfy`, module `CategoryItem`).
  The two dicts `category_directory` and `set_directory` live in class `Directories`.
  That class also does the class-declaration hooks and the cached `set()`. An item
  (`Item`) is a value: its class, `_identity`, `str(identity)` and its context. A set
  (`CategorySet`) is a class with constant `items` and `context` and a mutable cursor
  `iterpos`. It serves `__next__`, `__call__` and `__getitem__`.
- **Traversals** (`traversal.dfy`, module `Traversal`). `Traversal` and `ItemTraversal` are
  values. Reading one through an item merges the item's context with one binding
  and builds a fresh set.

`wrappers.dfy` holds `Option`, `Result` and the Python exceptions the code raises.
`strings.dfy` holds the parts of Python string behaviour the code relies on:
`sorted` on `str`, the sorted keys of a dict, ASCII `str.lower()`, and `str()` of an `int`.

The registry's accessor is a function value of type
`(Context, Option<string>) -> Result<seq<string>>`. It gets the context and the
lookup name. An `Err` it returns stands for an exception it raises, and
`find_items` passes that on unchanged.

Where the code and its own docstrings differ, the model follows the code:

- The docstrings of `Derivation` (pycats/derivation.py:11, 15, 35) speak of a lookup name
  "specified by traversal point". But `find_items` is always called without one
  (pycats/category_item.py:129), so traversals pass no lookup name.
- pycats/traversal.py:2 speaks of traversals to "a set/item". `ItemTraversal`
  inherits `Traversal.__get__`, so it also builds a set, not a single item.
- pycats/category_item.py:2-3 speaks of "set theory". The code defines no set
  algebra, membership test or equality (see Left out).

### Behaviour worth noting

- When no rule matches, `find_items` raises `AttributeError` (pycats/derivation.py:49).
  The model calls this error `NoDerivation`.
- An unknown set name is a `KeyError` (pycats/category_item.py:34-36).
- An identity outside a set is a `ValueError` (pycats/category_item.py:149-157).
- An item keeps every key of its context (pycats/category_item.py:24-32).

A keyword argument given twice in a Python call raises `TypeError`. The model
writes this out wherever the code passes a context with `**`:

- `open` rejects `cls` and `identity`.
- `CategoryItem.__init__` rejects `self` and `identity`.
- `CategorySet.__init__` rejects `self` and `items`.
- A traversal's binding key that is already in the item's context is a repeated keyword.

## Model

| member | source | states |
|---|---|---|
| `Strings.Sort` | pycats/derivation.py:19 | `sorted` on a list of str gives an ascending permutation of it |
| `Strings.Below` | pycats/derivation.py:19 | the str ordering `sorted` uses: a string whose first character is smaller comes first, and a string below a non-empty one starts with a character no larger than the other's |
| `Strings.SortedSet` | pycats/derivation.py:52 | the sorted keys of a dict: ascending, each key once, exactly the dict's keys |
| `Strings.SortedSetEquals` | pycats/derivation.py:52 | `sorted(context) == keys` holds for sorted `keys` iff `keys` has no repeats and the same members as the context's keys |
| `Strings.Lower` | pycats/traversal.py:20 | `str.lower()` keeps the length, maps each ASCII capital to its small letter and leaves every other character unchanged |
| `Strings.IntToString` | pycats/category_item.py:32 | `str()` of an int is never empty and starts with `-` exactly for negative ints |
| `Strings.IntToStringRoundTrip` | pycats/category_item.py:32 | `str()` of an int can be parsed back to that int |
| `Derivation.MakeRule` | pycats/derivation.py:18-20 | a missing or empty key list makes an identity rule (`None`); otherwise the keys are stored sorted, as a permutation of the given list, and never empty |
| `Derivation.PerfectMatch` | pycats/derivation.py:51-52 | a perfect match is only ever a non-identity rule of the requested category whose keys are distinct and are exactly the context's keys |
| `Derivation.PartialMatch` | pycats/derivation.py:54-55 | a partial match is only ever a non-identity rule of the requested category all of whose keys are context keys |
| `Derivation.IdentityMatch` | pycats/derivation.py:57-58 | a rule that matches as identity never matches perfectly or partially, so the three tiers select disjoint rules |
| `Derivation.Registry.constructor` | pycats/derivation.py:1 | the registry starts empty |
| `Derivation.Registry.Register` | pycats/derivation.py:9-22 | the new rule is appended at the end; every earlier rule and their order are unchanged |
| `Derivation.Registry.RegisteredPerfectMatchExactly` | pycats/derivation.py:51-52 | every rule in the registry holds sorted keys, so on any of them the perfect-match test holds iff its keys are distinct and exactly the context's keys |
| `Derivation.Registry.FindItems` | pycats/derivation.py:40-49 | the nested tier/rule loop returns the accessor result of the rule `Winner` selects, and raises the no-derivation error when there is none |
| `Derivation.FirstMatch` | pycats/derivation.py:42-43 | the first index at or after `from` whose rule matches in the tier; no earlier index matches; None iff no index matches |
| `Derivation.Winner` | pycats/derivation.py:40-47 | the rule the tiered search selects is in range and of the requested category; with no rule of that category nothing is selected |
| `Derivation.Resolve` | pycats/derivation.py:40-49 | a successful lookup is the accessor result of some rule of the requested category on the context and lookup name; with no rule of that category it raises the no-derivation error |
| `Derivation.PerfectMatchExactly` | pycats/derivation.py:51-52 | a perfect match holds iff the rule is non-identity, of the requested category, its keys are distinct and they are exactly the context's keys |
| `Derivation.DuplicateKeysNeverPerfect` | pycats/derivation.py:52 | a rule with a repeated required key never matches perfectly |
| `Derivation.PerfectImpliesPartial` | pycats/derivation.py:51-55 | every perfect match is a partial match: the required keys are all context keys |
| `Derivation.IdentityMatchIgnoresContext` | pycats/derivation.py:57-58 | an identity match holds exactly for identity rules of the category, whatever the context |
| `Derivation.OtherCategoryMatchesNowhere` | pycats/derivation.py:51-58 | a rule of another category matches in no tier |
| `Derivation.WinnerIsSelected` | pycats/derivation.py:40-47 | rule i is selected iff it matches in some tier, no earlier rule matches in that tier, and no rule at all matches in an earlier tier |
| `Derivation.NoWinnerIffNoMatch` | pycats/derivation.py:41-49 | find_items raises iff no rule matches in any of the three tiers |
| `Derivation.WinnerHasCategory` | pycats/derivation.py:41-47 | the selected rule is in range and has the requested category |
| `Derivation.RegisterKeepsOrTakesOver` | pycats/derivation.py:41-47 | appending a rule either keeps the selection or makes the new rule the winner; a rule of another category, or an existing perfect match, keeps it |
| `Derivation.IdentityRuleAlwaysSelected` | pycats/derivation.py:57-58 | with only an identity rule for a category, every context selects it |
| `Derivation.PerfectBeatsEarlierPartial` | pycats/derivation.py:41-47 | rules requiring {a} then {a, b}: the context {a, b} selects the later, perfectly matching rule |
| `CategoryItem.ItemClass.constructor` | pycats/category_item.py:108-113 | a newly declared item class has its name and no cached set class |
| `CategoryItem.SetClass.constructor` | pycats/category_item.py:45 | a set class made by `set()` has its name and its item class as `single` |
| `CategoryItem.NewItem` | pycats/category_item.py:24-32 | `cls(identity, **context)` stores the lower-cased class name, `str(identity)` and the context; a `self` or `identity` keyword is a TypeError |
| `CategoryItem.OpenItem` | pycats/category_item.py:82-88 | `open` succeeds iff none of `cls`, `identity`, `self` is a context key, and then gives the item `cls(identity, **context)` gives |
| `CategoryItem.ItemIdentityIsStr` | pycats/category_item.py:31-32 | an opened item keeps a string identity unchanged, an int identity readable back as that int, and the given context |
| `CategoryItem.Str` | pycats/category_item.py:32 | `str(identity)` keeps a string identity unchanged and turns an int into text that parses back to that int |
| `CategoryItem.IntIdentitiesDistinct` | pycats/category_item.py:32 | two different int identities never give the same stored identity string |
| `CategoryItem.NewSetValue` | pycats/category_item.py:121-129 | a `self` or `items` keyword is a TypeError; a built set has the class and exactly the keyword context |
| `CategoryItem.ResolveItems` | pycats/category_item.py:129 | `items or find_items(...)`: non-empty given items are kept as they are; otherwise a successful result is the accessor result of some rule of the item class's category |
| `CategoryItem.ExplicitItemsKept` | pycats/category_item.py:129 | a non-empty explicit item list becomes the set's items unchanged, whatever the registry holds |
| `CategoryItem.MissingItemsResolve` | pycats/category_item.py:129 | without items (None or empty), the set's items are the selected rule's accessor result for the item class's name; no rule matches in any tier iff `Winner` is None, and then building fails with the no-derivation error; an error the selected accessor raises is passed on unchanged |
| `CategoryItem.OpenSet` | pycats/category_item.py:121-129 | a successful build is a fresh set with cursor 0 holding what NewSetValue gives; otherwise the same error is raised |
| `CategoryItem.CategorySet.constructor` | pycats/category_item.py:127-129 | a new set has the given class, context and items and its cursor at 0 |
| `CategoryItem.CategorySet.Iter` | pycats/category_item.py:131-135 | the set is its own iterator |
| `CategoryItem.CategorySet.Next` | pycats/category_item.py:137-147 | before the end: yields `s[iterpos]` opened with the set's context and advances the cursor by one; at the end: StopIteration and no change; the cursor never passes the end and never goes back, so a second pass yields nothing |
| `CategoryItem.CategorySet.Call` | pycats/category_item.py:149-157 | an identity not in the items is a ValueError; a found item has that identity, the set's context and the set's item class |
| `CategoryItem.CategorySet.GetItem` | pycats/category_item.py:170-171 | `s[i]` gives an item whose identity is one of the set's items, with the set's context and item class |
| `CategoryItem.CategorySet.CallSucceedsIffMember` | pycats/category_item.py:149-157 | `s(identity)` succeeds iff the identity is in the items, giving that item with the set's context; otherwise ValueError |
| `CategoryItem.CategorySet.GetItemAgreesWithCall` | pycats/category_item.py:170-171 | `s[i]` is `s(items[i])`, a negative index counts from the end, and IndexError iff the index is out of range |
| `CategoryItem.Directories.constructor` | pycats/category_item.py:10-15 | both directories start empty |
| `CategoryItem.Directories.DeclareItemClass` | pycats/category_item.py:108-113 | the new class is filed under its name, replacing an earlier class of that name; set_directory is unchanged |
| `CategoryItem.Directories.DeclareSetClass` | pycats/category_item.py:162-168 | the set class is filed under its item class's name and under its own name; category_directory is unchanged |
| `CategoryItem.Directories.SetOf` | pycats/category_item.py:42-46 | the first call makes, declares and caches `<Name>Set`; every later call returns the same class and changes nothing |
| `CategoryItem.Directories.CategorySetFor` | pycats/category_item.py:34-36 | the set class filed under the name, which is its own name or its item class's name; KeyError iff the name is not filed |
| `CategoryItem.Derive` | pycats/category_item.py:38-40 | registers one rule under the item class's name at the end of the registry |
| `CategoryItem.FolderSetScenario` | tests/test_categories.py:24-37 | with Folder's rule on `filesystem`, `FolderSet(filesystem='ourfs').items` is `['/home/ourfs/files']` |
| `Traversal.MakeLink` | pycats/traversal.py:10-13 | a Traversal stores target, rename_this as rename_from, and fixed_items |
| `Traversal.MakeItemLink` | pycats/traversal.py:24-27 | an ItemTraversal stores target_identity both as rename_from and as target_identity, and assume_identity as fixed_items |
| `Traversal.Merge` | pycats/traversal.py:19-20 | the merged keywords are the context's entries plus the key bound to the identity, and nothing else; a key already in the context is a TypeError, so nothing is overwritten |
| `Traversal.BindingKey` | pycats/traversal.py:20 | a non-empty rename_from is the key; otherwise the key is the owner class's name lower-cased: same length, no capital letters |
| `Traversal.Navigate` | pycats/traversal.py:15-21 | the target looked up in set_directory (KeyError if absent); a built set is of that class and its context binds the binding key to the item's identity |
| `Traversal.NavigateAsWritten` | pycats/traversal.py:16 | for an owner class that does not define `category_set` itself, the access never succeeds |
| `Traversal.Get` | pycats/traversal.py:15-21 | every access builds a fresh set with cursor 0 holding what Navigate describes, or raises Navigate's error; nothing is cached |
| `Traversal.UnknownTargetRaises` | pycats/category_item.py:34-36 | a target not in set_directory is a KeyError |
| `Traversal.NavigateMergesContext` | pycats/traversal.py:15-21 | the built set is of the class filed under the target, and its context is the item's context plus the binding key bound to the item's identity |
| `Traversal.BoundKeyCollides` | pycats/traversal.py:19-20 | a binding key already in the item's context raises TypeError |
| `Traversal.NavigateItems` | pycats/traversal.py:18 | non-empty fixed_items are the set's items as given; otherwise the items are find_items' result on the merged context |
| `Traversal.RenamedLinkBindsRenamedKey` | pycats/traversal.py:20 | a non-empty rename_from is the key bound to the item's identity; the owner's lower-cased name is in the result only if the item's context already held it |
| `Traversal.DefaultKeyIsItemClassKey` | pycats/traversal.py:20 | without a rename, the binding key through an item's own class is the `_identity` the item computed |
| `Traversal.ItemLinkNavigatesAsSet` | pycats/traversal.py:24-27 | reading an ItemTraversal binds target_identity to the item's identity and uses assume_identity as the fixed items |
| `Traversal.AsWrittenAlwaysRaises` | pycats/traversal.py:16 | as written, every access raises AttributeError for `category_set` |
| `Traversal.BasicTraversalScenario` | tests/test_categories.py:39-57 | `Folder('testing').my_files` raises as written; the intended lookup gives an empty FileSet whose context binds `folder` to `testing` |

## Findings

| source | as written | input that shows it | evidently intended | confidence | as-written member | corrected member |
|---|---|---|---|---|---|---|
| pycats/traversal.py:16 | `owner.category_set(self.target)`, but item classes only have `_category_set` (pycats/category_item.py:34-36) | any access, e.g. `Folder('testing').my_files` of tests/test_categories.py:56-57 | look the target up in `set_directory` and build that set | high; not executed | `Traversal.NavigateAsWritten` (shown by `Traversal.AsWrittenAlwaysRaises`, `Traversal.BasicTraversalScenario`) | `Traversal.Navigate` / `Traversal.Get` (proved by `Traversal.NavigateMergesContext`, `Traversal.NavigateItems`) |

## Left out

- The accessor's arity probe (`except TypeError`, pycats/derivation.py:44-47): the model's accessor always receives the lookup name. So it does not model an accessor that raises TypeError itself and is then called again with one argument.
- Runtime class creation with `type(...)` and class inheritance: item and set classes are objects with a name (and, for sets, `single`). A subclass of an item class that would inherit a parent's cached `_set` through `hasattr` is not modelled.
- A set class declared without a `single` attribute would fail in `__init_subclass__` with AttributeError. The model gives every set class an item class.
- Item identities are strings or ints (`str()` of other objects is not modelled). Set items are identity strings. Items that are entity objects, and non-list values such as a string passed as `items`, are not modelled.
- `MakeItemLink`: `assume_identity` has the type of the `fixed_items` it is stored as. The model does not cover other values passed there.
- `CategorySet.__getitem__` with a slice.
- The commented-out `__getattr__` (pycats/category_item.py:48-80). It is dead code.
- `__repr__` formatting, and the empty `initial_load`/`late_load` hooks.
- Set algebra (`&`, `|`, `^`), membership and equality of sets: the code defines none of them. tests/test_categories.py:57 compares two sets with `==`, which falls back to object identity.
- Python dicts keep insertion order; a context is a `map` here. The order of a context only matters to `__repr__` and to accessors.
- `Strings.Lower`: only ASCII letters are lower-cased. Python's `str.lower()` also maps other Unicode capitals.
- The live database query of structures/database.py, packaging (setup.py), the descriptor helper in pycats/clsmethod_descriptor.py, and the re-exports of pycats/__init__.py. These are I/O and plumbing.
- Concurrency: the Python code is single-threaded, and so is the model.
