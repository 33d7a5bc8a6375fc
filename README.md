# biloba.config — a verified model

`biloba.config` is a hierarchical configuration store. A configuration is a tree
of nested mappings whose leaves are strings, numbers, booleans, null, opaque
objects and lists. Keys are addressed either directly (`'foo'`, `1`) or by a
dotted path (`'foo.bar.baz'`), which walks one mapping level per segment.

A string value that is exactly `${some.path}` is a placeholder. On every read,
the `Config` container replaces it with the (itself expanded) value at that
path of the same tree. Expansion reaches into lists and mappings. Writes store
raw values, placeholders included.

The model has six modules:

- `Values` (values.dfy): the tree's keys (`KStr`, `KInt`) and values
  (`Str`, `Int`, `Bool`, `Null`, `Opaque`, `List`, `Map`), and the three
  failures. `KeyNotFound` is Python's `KeyError`. `TypeMismatch` is the
  `TypeError` of indexing something that is not a mapping. `CyclicReference`
  is a placeholder chain longer than the bound.
- `Paths` (paths.dfy): splitting a dotted key into its segments, as
  `str.split('.')` does. Integer keys and text without '.' are one segment.
- `Resolver` (resolver.dfy):
  - `get_key` is `GetKey`, over the path walk `Walk`.
  - `set_value` is the method `SetValue`. It works on a `Dict` object whose
    `items` map it updates in place. It is proved against the function
    `Assign`, which states the tree after a write.
- `Expansion` (expansion.dfy): placeholder expansion (`Expand`) and the read it
  completes (`Read`, used by `Config.get` and `Config[key]`).
- `Container` (container.dfy): the `Config` class. It has `Get`, `GetItem`
  (`[]`), `SetItem` (`[]=`), `SetDefault`, `Contains` (`in`) and `Equals`
  (`==` against a plain mapping).
- `Address` (address.dfy): `parse_address`, which splits `host[:port]`.

`Fixtures` (fixtures.dfy) restates each test of `biloba/test/test_config.py`
over the model. Results are proved lemma by lemma for the pure functions. For
the stateful operations, a method drives a `Config` or `Dict` through the
test's steps and states what it observed in its postcondition.

Placeholder chains are followed with an explicit bound (`fuel`; `Config` uses
`MaxExpansionDepth` = 100). Running out of fuel is the distinct failure
`CyclicReference`. Raising the bound never changes a result that did not hit it
(`ExpandFuelMonotone`).

## Model

| member | source | states |
|---|---|---|
| Paths.Split | biloba/test/test_config.py:70-77 | a dotted key splits into at least one segment, none of which contains '.' |
| Paths.JoinSplit | biloba/test/test_config.py:70-77 | joining the segments of a key with '.' gives the key back |
| Paths.SplitJoin | biloba/test/test_config.py:70-77 | splitting segments joined with '.' gives those segments back, when none contains '.' |
| Paths.SplitUndotted | biloba/test/test_config.py:61-68 | text without '.' is a single segment, itself |
| Paths.SplitPrefix | biloba/test/test_config.py:189-199 | `head.tail` splits into `head` followed by the segments of `tail` |
| Paths.Segments | biloba/test/test_config.py:79-86 | a non-dotted key (an integer, or text without '.') is its own single segment; a dotted key gives one text segment per piece of its split, at least two |
| Paths.SplitDotted | biloba/test/test_config.py:70-77 | text with a '.' splits into at least two segments |
| Paths.SegmentsOfDottedKey | biloba/test/test_config.py:70-77 | the key built by joining two or more dot-free names addresses exactly those names in order |
| Paths.SegmentsOfTwo | biloba/test/test_config.py:177-187 | `a.b` addresses segment `a`, then `b` |
| Paths.SegmentsOfThree | biloba/test/test_config.py:189-199 | `a.b.c` addresses `a`, then `b`, then `c` |
| Resolver.Walk | biloba/test/test_config.py:47-86 | a walk fails only with KeyNotFound or TypeMismatch; a missing first segment is KeyNotFound; a success means the first segment is present and, for a longer path, holds a mapping |
| Resolver.WalkAppend | biloba/test/test_config.py:70-77 | walking `p + q` walks `p`, then `q` from where `p` led; a failure on `p` is the failure of the whole walk, and ending `p` on a non-mapping is TypeMismatch |
| Resolver.GetKey | biloba/test/test_config.py:47-86 | `get_key` fails only with KeyNotFound or TypeMismatch and never with KeyNotFound when a default is given; without a default it is the walk along the key's segments; a non-dotted key succeeds exactly when it is present or a default is given |
| Resolver.GetKeyTopLevel | biloba/test/test_config.py:61-68 | a non-dotted key present at the top level gives its value; absent, it gives KeyNotFound without a default and the default with one |
| Resolver.GetKeyNested | biloba/test/test_config.py:70-77 | a key with segments `a`, `b` gives `root[a][b]`, whatever default is passed |
| Resolver.GetKeyDotted | biloba/test/test_config.py:70-77 | a dotted key of any depth gives exactly the walk along its segments; the default replaces only KeyNotFound |
| Resolver.GetKeyMissing | biloba/test/test_config.py:47-59 | without a default a read fails with KeyNotFound exactly when a segment is missing; with a default the default is returned then, and no other failure is replaced |
| Resolver.ParentOfPrefix | biloba/test/test_config.py:201-222 | when a proper prefix of the path fails to resolve, or resolves to a non-mapping, the parent of the last segment is unreachable with that error, or TypeMismatch |
| Resolver.ParentStep | biloba/test/test_config.py:189-199 | below a first segment holding a mapping, the parent of the last segment is found from that mapping along the remaining segments |
| Resolver.AssignParent | biloba/test/test_config.py:201-222 | a write fails exactly when the parent mapping of the last segment cannot be reached, with the same error; on success the parent gains the last key and keeps its other entries |
| Resolver.AssignThenWalk | biloba/test/test_config.py:177-199 | after a successful write, reading the written path gives the written value |
| Resolver.AssignFrame | biloba/test/test_config.py:268-289 | a write leaves everything reached along a diverging path unchanged |
| Resolver.Assign | biloba/test/test_config.py:268-312 | a successful write keeps every top-level key and adds at most the first segment, which must already exist for a dotted key; only a dotted key can fail, with KeyNotFound or TypeMismatch |
| Resolver.Dict.constructor | biloba/test/test_config.py:272-276 | a new mutable mapping holds the given entries |
| Resolver.ParentStepOf | biloba/test/test_config.py:291-312 | from the mapping reached after `i` segments, a missing next segment makes the parent unreachable with KeyNotFound, a non-mapping one with TypeMismatch, and otherwise the walk goes one level down |
| Resolver.SetValue | biloba/test/test_config.py:268-312 | `set_value` walks to the parent in a loop. A missing intermediate gives KeyNotFound and a non-mapping gives TypeMismatch, and the mapping is then unchanged. Otherwise the mapping becomes the `Assign` result and reading the key back gives the value |
| Expansion.PlaceholderRoundTrip | biloba/test/test_config.py:99-101 | `${path}` is recognised as a placeholder and its path reads back as `path` |
| Expansion.PlaceholderOfPath | biloba/test/test_config.py:99-101 | every recognised placeholder is `${` + its path + `}` |
| Expansion.WorstError | biloba/test/test_config.py:128-145 | the error chosen for a failing mapping is the error of one of its failing values |
| Expansion.Expand | biloba/test/test_config.py:104-145 | a successful expansion holds no placeholder anywhere; a list keeps its length and a mapping its keys |
| Expansion.ExpandText | biloba/test/test_config.py:99-110 | expanding one string never leaves a placeholder in a successful result |
| Expansion.ExpandElements | biloba/test/test_config.py:112-126 | expanding a list's elements gives as many elements, none holding a placeholder |
| Expansion.ExpandResolved | biloba/test/test_config.py:112-126 | a value holding no placeholder expands to itself: scalars, opaque objects and plain lists and mappings come back equal |
| Expansion.ElementsResolved | biloba/test/test_config.py:112-126 | elements holding no placeholder expand to themselves |
| Expansion.ExpandIdempotent | biloba/test/test_config.py:104-110 | expanding the result of an expansion gives it back |
| Expansion.ExpandPlaceholder | biloba/test/test_config.py:104-110 | a placeholder expands to a strict read of its path with one step less of the bound, and to CyclicReference when no step is left |
| Expansion.ExpandLiteral | biloba/test/test_config.py:167-175 | a string that is not exactly one placeholder is returned as literal text |
| Expansion.ElementsCons | biloba/test/test_config.py:112-126 | a non-empty list of elements expands to `ys` exactly when its head expands to the head of `ys` and its tail to the tail of `ys` |
| Expansion.ElementsShift | biloba/test/test_config.py:112-126 | every element expands in place exactly when the head does and every element of the tail does |
| Expansion.ElementsOk | biloba/test/test_config.py:112-126 | the elements expand to `ys` exactly when each element expands to the element of `ys` at the same position |
| Expansion.ElementsFail | biloba/test/test_config.py:112-126 | a failed pass over the elements reports the error of the first failing element, all before it succeeding |
| Expansion.ExpandList | biloba/test/test_config.py:112-126 | a list expands to `List(ys)` exactly when every element expands, in place, to the element of `ys` |
| Expansion.ExpandListFails | biloba/test/test_config.py:112-126 | a list fails exactly when some element fails, and with the first failing element's error |
| Expansion.ExpandMap | biloba/test/test_config.py:128-145 | a mapping expands to `Map(m')` exactly when `m'` has the same keys and each value expands to the value of `m'` under its key |
| Expansion.ExpandMapFails | biloba/test/test_config.py:128-145 | a mapping fails exactly when some value fails, and with the error of one of the failing values |
| Expansion.ExpandFuelMonotone | biloba/test/test_config.py:104-110 | a larger chain bound gives the same result as any bound that did not end in CyclicReference |
| Expansion.TextFuelMonotone | biloba/test/test_config.py:104-110 | the same for a single string |
| Expansion.ReadFuelMonotone | biloba/test/test_config.py:104-110 | the same for a strict read |
| Expansion.ElementsFuelMonotone | biloba/test/test_config.py:112-126 | the same for the elements of a list |
| Expansion.MapFuelMonotone | biloba/test/test_config.py:128-145 | the same for the values of a mapping |
| Expansion.Read | biloba/test/test_config.py:104-145 | a successful read holds no placeholder; a strict read succeeds only when the key's path is present |
| Expansion.ReadResolved | biloba/test/test_config.py:177-199 | a key whose raw value holds no placeholder reads as that raw value |
| Expansion.SelfReferenceIsCyclic | biloba/test/test_config.py:99-101 | a key whose value is a placeholder for itself reads as CyclicReference under every bound |
| Expansion.TwoCycleIsCyclic | biloba/test/test_config.py:99-110 | two keys whose placeholders refer to each other read as CyclicReference under every bound |
| Expansion.ReadFollowsChain | biloba/test/test_config.py:104-110 | reading a key whose raw value is `${path}` gives the read of `path`, with one step less of the bound |
| Expansion.ReadMissing | biloba/test/test_config.py:247-260 | a missing key reads as KeyNotFound without a default, and as the expanded default with one |
| Container.Config.constructor | biloba/test/test_config.py:104-105 | a new Config holds exactly the initial mapping in a fresh store |
| Container.Config.Get | biloba/test/test_config.py:247-260 | `get` reads with the default; the result holds no placeholder, and a missing key yields the expanded default |
| Container.Config.GetItem | biloba/test/test_config.py:158-165 | `config[key]` reads without a default; the result holds no placeholder, and a missing key is KeyNotFound |
| Container.Config.SetItem | biloba/test/test_config.py:167-222 | `config[key] = value` is `set_value` on the store, with the same errors and no change on failure; a non-dotted key always succeeds and sets that top-level key |
| Container.Config.Contains | biloba/test/test_config.py:224-233 | for a non-dotted key, `in` holds exactly when a strict `get_key` of it succeeds |
| Container.ContainsIsTopLevel | biloba/test/test_config.py:224-233 | `in` tests the raw top-level keys only: a dotted key that is not itself a top-level key is not in the Config, whatever its path reads |
| Container.Config.Equals | biloba/test/test_config.py:235-245 | `==` compares raw values before expansion: a Config holding a placeholder under some top-level key never equals a mapping free of placeholders, whatever the placeholder reads as |
| Container.Config.SetDefault | biloba/test/test_config.py:147-156 | a present key keeps its value, which is returned; an absent key is set to the given value, which is returned |
| Address.DigitsValueShowNat | biloba/test/test_config.py:15-22 | the decimal spelling of a number is a digit string whose value is that number |
| Address.FirstColon | biloba/test/test_config.py:15-22 | the position of the first ':' |
| Address.ParseAddress | biloba/test/test_config.py:15-32 | text without ':' is a host with no port; otherwise the text before the first ':' is the host and the rest, read as a decimal number, is the port; the parse fails exactly when there is a ':' and the text after the first one is not a run of digits |
| Address.ParseDigitPort | biloba/test/test_config.py:15-22 | `host:d` with a colon-free host and any run of digits `d` parses to that host and the number `d` spells, leading zeros included |
| Address.ParseShownAddress | biloba/test/test_config.py:15-22 | `host:port` with a colon-free host parses back to that host and port |
| Address.ParseBareHost | biloba/test/test_config.py:24-28 | a colon-free host parses to itself with no port |
| Address.ParseBadPort | biloba/test/test_config.py:30-32 | a port that is not a decimal number is rejected |
| Fixtures.ShowPort | biloba/test/test_config.py:15-22 | 1234 is spelt "1234" |
| Fixtures.ParseHostAndPort | biloba/test/test_config.py:15-22 | "foo:1234" parses to host "foo", port 1234 |
| Fixtures.ParseNoPort | biloba/test/test_config.py:24-28 | "foo" parses to host "foo", no port |
| Fixtures.ParsePortNotInt | biloba/test/test_config.py:30-32 | "foo:bar" is rejected |
| Fixtures.ParseLeadingZero | biloba/test/test_config.py:15-22 | "foo:08" parses to host "foo", port 8 |
| Fixtures.GetKeyMissingFixture | biloba/test/test_config.py:47-59 | 'bar' is KeyNotFound, and with a sentinel default gives the sentinel |
| Fixtures.GetKeyNotDottedFixture | biloba/test/test_config.py:61-68 | 'foo' gives `config['foo']` |
| Fixtures.GetKeyDottedFixture | biloba/test/test_config.py:70-77 | 'foo.bar' gives `[1, 2, 3]` |
| Fixtures.GetKeyIntFixture | biloba/test/test_config.py:79-86 | the integer key 1 gives 'bar' |
| Fixtures.SegmentsLoggerAddress | biloba/test/test_config.py:104-110 | 'logger.address' addresses 'logger', then 'address' |
| Fixtures.SegmentsHttpAddress | biloba/test/test_config.py:99-101 | 'http.address' addresses 'http', then 'address' |
| Fixtures.SanityRawLogger | biloba/test/test_config.py:94-110 | the raw value at 'logger.address' is '${http.address}' |
| Fixtures.SanityRawHttp | biloba/test/test_config.py:94-110 | the raw value at 'http.address' is '127.0.0.1' |
| Fixtures.PlaceholderHttpAddress | biloba/test/test_config.py:99-101 | '${http.address}' is the placeholder of 'http.address' |
| Fixtures.SanityPlaceholderStep | biloba/test/test_config.py:104-110 | '${http.address}' expands to a strict read of 'http.address' |
| Fixtures.SanityTarget | biloba/test/test_config.py:104-110 | reading 'http.address' gives '127.0.0.1' |
| Fixtures.SanityFixture | biloba/test/test_config.py:104-110 | `get('logger.address')` gives '127.0.0.1' |
| Fixtures.FooRawA | biloba/test/test_config.py:112-119 | 'foo.a' holds 'A' |
| Fixtures.FooRawB | biloba/test/test_config.py:112-119 | 'foo.b' holds 'B' |
| Fixtures.PlaceholderFooA | biloba/test/test_config.py:118 | '${foo.a}' is the placeholder of 'foo.a' |
| Fixtures.FooStepA | biloba/test/test_config.py:118 | '${foo.a}' expands to a strict read of 'foo.a' |
| Fixtures.PlaceholderFooB | biloba/test/test_config.py:118 | '${foo.b}' is the placeholder of 'foo.b' |
| Fixtures.FooStepB | biloba/test/test_config.py:118 | '${foo.b}' expands to a strict read of 'foo.b' |
| Fixtures.FooPlaceholderA | biloba/test/test_config.py:112-126 | '${foo.a}' expands to 'A' |
| Fixtures.FooPlaceholderB | biloba/test/test_config.py:112-126 | '${foo.b}' expands to 'B' |
| Fixtures.ExpandListOver | biloba/test/test_config.py:112-126 | when `a` and `b` expand to 'A' and 'B', `[a, 1, b]` expands to `['A', 1, 'B']` |
| Fixtures.ExpandListFixture | biloba/test/test_config.py:112-126 | `conf['bar']` gives `['A', 1, 'B']` |
| Fixtures.ExpandDictOver | biloba/test/test_config.py:128-145 | `{'c': '${foo.a}', 'd': '${foo.b}'}` expands to `{'c': 'A', 'd': 'B'}` |
| Fixtures.ExpandDictFixture | biloba/test/test_config.py:128-145 | `conf['bar']` gives `{'c': 'A', 'd': 'B'}` |
| Fixtures.SetDefaultScenario | biloba/test/test_config.py:147-156 | after `setdefault('a', a)` then `setdefault('a', b)`, `conf['a']` is `a` both times |
| Fixtures.MissingScenario | biloba/test/test_config.py:158-165 | `conf['foobar']` on an empty Config is KeyNotFound |
| Fixtures.SetScenario | biloba/test/test_config.py:167-175 | after `conf['foo'] = 'bar'`, `conf['foo']` is 'bar' |
| Fixtures.SegmentsFooBar | biloba/test/test_config.py:177-187 | 'foo.bar' addresses 'foo', then 'bar' |
| Fixtures.SegmentsFooBarBaz | biloba/test/test_config.py:189-199 | 'foo.bar.baz' addresses 'foo', 'bar', 'baz' |
| Fixtures.AssignFooBar | biloba/test/test_config.py:177-187 | writing 'baz' at foo.bar of `{'foo': {}}` gives `{'foo': {'bar': 'baz'}}` |
| Fixtures.AssignFooBarBaz | biloba/test/test_config.py:189-199 | writing 'pies' at foo.bar.baz of `{'foo': {'bar': {}}}` nests it two levels down |
| Fixtures.AssignThroughMissing | biloba/test/test_config.py:201-210 | writing at foo.bar.baz of `{'foo': {}}` is KeyNotFound |
| Fixtures.AssignThroughString | biloba/test/test_config.py:212-222 | writing at foo.bar.baz when 'bar' holds a string is TypeMismatch |
| Fixtures.AssignThroughList | biloba/test/test_config.py:300-312 | writing at foo.bar.baz when 'bar' holds a list is TypeMismatch |
| Fixtures.AssignIntoEmpty | biloba/test/test_config.py:291-298 | writing at foo.bar of `{}` is KeyNotFound |
| Fixtures.AssignHttpPort | biloba/test/test_config.py:268-289 | writing 5000 at http.port adds 'port' beside 'address' |
| Fixtures.AssignLogLevel | biloba/test/test_config.py:268-289 | writing 'debug' at log_level adds a top-level key |
| Fixtures.WalkThree | biloba/test/test_config.py:189-199 | a three-segment walk through two mappings reaches the innermost value |
| Fixtures.SetDottedReads | biloba/test/test_config.py:177-187 | after the writes, 'foo.bar' reads 'baz' and 'foo' reads `{'bar': 'baz'}` |
| Fixtures.SetDottedMultipleDeepRead | biloba/test/test_config.py:189-199 | after the writes, 'foo.bar.baz' reads 'pies' |
| Fixtures.SetDottedMultipleTopRead | biloba/test/test_config.py:189-199 | after the writes, 'foo' reads `{'bar': {'baz': 'pies'}}` |
| Fixtures.SetDottedSetup | biloba/test/test_config.py:181-184 | `conf['foo'] = {}` then `conf['foo.bar'] = 'baz'` succeeds and leaves `{'foo': {'bar': 'baz'}}` |
| Fixtures.SetDottedMultipleSetup | biloba/test/test_config.py:193-196 | `conf['foo'] = {'bar': {}}` then `conf['foo.bar.baz'] = 'pies'` succeeds and leaves `{'foo': {'bar': {'baz': 'pies'}}}` |
| Fixtures.SetDottedScenario | biloba/test/test_config.py:177-187 | `conf['foo.bar']` is 'baz', and `conf['foo']` is `{'bar': 'baz'}`, whose 'bar' is 'baz' |
| Fixtures.SetDottedMultipleScenario | biloba/test/test_config.py:189-199 | `conf['foo.bar.baz']` is 'pies', and `conf['foo']` is the nested mapping whose ['bar']['baz'] is 'pies' |
| Fixtures.SetDottedFailuresScenario | biloba/test/test_config.py:201-222 | a dotted write through a missing key is KeyNotFound, and through a string is TypeMismatch |
| Fixtures.ContainsScenario | biloba/test/test_config.py:224-233 | after `conf['foo'] = 'bar'`, 'bar' is not in conf and 'foo' is |
| Fixtures.ContainsDottedScenario | biloba/test/test_config.py:224-233 | a Config holding `{'foo': {'bar': 1}}` reads 1 at 'foo.bar', yet 'foo.bar' is not in it |
| Fixtures.EqualsRawScenario | biloba/test/test_config.py:235-245 | a Config holding `{'a': '${b}', 'b': 'x'}` reads 'x' under both keys yet is not equal to `{'a': 'x', 'b': 'x'}` |
| Fixtures.EqualityScenario | biloba/test/test_config.py:235-245 | an empty Config equals `{}`, and after one write equals `{'foo': 'bar'}` |
| Fixtures.GetDefaultScenario | biloba/test/test_config.py:247-260 | `get('foo')` on an empty Config is None, and with a sentinel default is the sentinel |
| Fixtures.SetValueScenario | biloba/test/test_config.py:268-289 | the two `set_value` calls leave exactly the expected dictionary |
| Fixtures.SetValueFailuresScenario | biloba/test/test_config.py:291-312 | `set_value` through a missing key is KeyNotFound, and through a list is TypeMismatch |

## Left out

- The implementation of the `biloba.config` module is not part of this model;
  the behaviour follows the project's tests. Python raises `ValueError` for a
  non-numeric port; the model has the single error `InvalidPort`.
- Dictionary order is not modelled: mappings are Dafny `map`s. When several
  values of a mapping fail to expand, the one reported is chosen by severity
  (CyclicReference, then KeyNotFound, then TypeMismatch), not by position.
- Aliasing is not modelled. Nested mappings are values, so a nested dict shared
  between two places, or the caller's own dict passed to `Config(...)`, is not
  updated through the other reference. `Config` holds one mutable `Dict` of its
  own.
- Python object identity (`assertIs`) is modelled as equality of `Opaque(id)`
  values. Floats and other scalar types are absent.
- Python's equality across scalar types is not modelled. In Python `True == 1`,
  so `{'a': 1} == {'a': True}` holds and `1` and `True` are the same dict key.
  Here `Int(1)` and `Bool(true)` are different values, and a boolean key cannot
  be written at all.
- Placeholder chains are bounded by `fuel` (`MaxExpansionDepth` for `Config`).
  A chain longer than the bound, as any cyclic chain is, is reported as the
  distinct `CyclicReference`. The tests never exercise a cycle. Self-reference
  and two-key cycles are proved to end this way (`SelfReferenceIsCyclic`,
  `TwoCycleIsCyclic`).
- A placeholder's inner lookup is strict: a missing target path fails the read
  with KeyNotFound, whatever default the outer `get` was given.
- Reading through a non-mapping intermediate (`'a.b'` where `a` holds a list or
  a string) is TypeMismatch, as Python's `TypeError`.
- Address.ParseAddress: the port must be a non-empty run of ASCII digits.
  Python's `int()` also accepts surrounding whitespace, a sign, underscores and
  non-ASCII digits, and those inputs are rejected here. The port is an
  unbounded natural number, with no range check.
- Strings are sequences of characters, with no Unicode normalisation.
