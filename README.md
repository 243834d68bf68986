# Product record, type-filtered listing and name ordering

A Dafny model of the abstract `Product` class of a small JavaFX/H2 catalogue
application. The class has four mutable fields (`id`, `name`, `manufacturer`,
`type`), each with a getter and a setter. It also has a `toString` that prints the
fields on three lines, a static `printType` that prints the products of a list
whose type matches an `ItemType` tag, and a static comparator that orders
products by name through `String.compareTo`.

Files:

- `wrappers.dfy` (module `Wrappers`): `Option` stands for a Java reference that may
  be `null`. `Outcome` is either a returned value or a `NullPointerException`.
- `java_string.dfy` (module `JavaString`): `CompareTo` models `java.lang.String.compareTo`,
  with its documented value and the laws of a total order.
- `product.dfy` (module `Sample`): the `Product` class and the spec functions
  `FirstUnset` and `Matching`. `PrintType` is a loop proved against them. The file
  also has the filter laws, the comparator lemmas and the `toString` lemmas.

Design points:

- `Product` is a Dafny class. The three string fields are `Option<string>`, because
  Java leaves the unassigned ones `null`. The field `type` is called `itemType`,
  because `type` is a reserved word in Dafny.
- The `%n` line separator depends on the platform. `ToString` takes it as a
  parameter `lineSeparator`, so every lemma about the layout holds for any separator.
- `String.format("%s", null)` prints `null`; `Show` models this.
- The console is not modelled. `PrintType` returns the products it would print, in
  order. The printed text is each one's `toString` followed by a line separator. That
  is `Product`'s `ToString`, unless a concrete subclass overrides it.
  `PrintType` has no `modifies` clause, so it changes neither the list nor any product.
- `printType` calls `p.getType().equals(tag)`. For a product whose type is `null`,
  that call throws a `NullPointerException`, and the products before it have
  already been printed. Skipping a product whose type is unset would be safer, but
  `printType` throws, so the model follows the code. `PrintType` returns what was
  emitted up to the first product with an unset type (`FirstUnset`), together with
  `threw`.
- `String.compareTo` throws when either name is `null`. `ProductNameComparator`
  then returns `NullPointerException`.

## Model

| member | source | states |
|---|---|---|
| `Sample.Product.constructor` | src/sample/Product.java:42-44 | `name` is the argument; `id` is 0 and `manufacturer` and `type` are `null` (Java's defaults) |
| `Sample.Product.GetId` | src/sample/Product.java:52-54 | returns `id`; it reads only this product and changes nothing |
| `Sample.Product.SetId` | src/sample/Product.java:62-64 | `GetId()` afterwards returns the argument; name, manufacturer and type are unchanged |
| `Sample.Product.GetName` | src/sample/Product.java:72-74 | returns `name`; it reads only this product and changes nothing |
| `Sample.Product.SetName` | src/sample/Product.java:82-84 | `GetName()` afterwards returns the argument; id, manufacturer and type are unchanged |
| `Sample.Product.GetManufacturer` | src/sample/Product.java:92-94 | returns `manufacturer`; it reads only this product and changes nothing |
| `Sample.Product.SetManufacturer` | src/sample/Product.java:102-104 | `GetManufacturer()` afterwards returns the argument; id, name and type are unchanged |
| `Sample.Product.GetType` | src/sample/Product.java:111-113 | returns `type`; it reads only this product and changes nothing |
| `Sample.Product.SetType` | src/sample/Product.java:120-122 | `GetType()` afterwards returns the argument; id, name and manufacturer are unchanged |
| `Sample.Product.PrintType` | src/sample/Product.java:129-135 | emits exactly the filter `Matching` of the prefix before the first product whose type is null; throws exactly when such a product exists; with every type set, it does not throw and emits `Matching` of the whole list; emits nothing when no type matches (so also for an empty list) |
| `Sample.FirstUnset` | src/sample/Product.java:131 | the index of the first product whose `getType()` is null, or the list length if there is none |
| `Sample.MatchingMultiplicity` | src/sample/Product.java:130-133 | a product occurs among the emitted products as often as in the list when its type equals the tag, and never otherwise |
| `Sample.MatchingMembers` | src/sample/Product.java:130-133 | a product is emitted if and only if it is in the list and its type equals the tag |
| `Sample.MatchingIsSubsequence` | src/sample/Product.java:130-133 | the emitted products keep the list's relative order: they form a subsequence of it |
| `Sample.MatchingNoneMatch` | src/sample/Product.java:130-133 | nothing is emitted when no product's type equals the tag |
| `Sample.MatchingExample` | src/sample/Product.java:129-135 | listing `[X: AUDIO, Y: MOVIE, Z: AUDIO]` by `AUDIO` gives `[X, Z]` |
| `Sample.Show` | src/sample/Product.java:148-152 | `%s` prints a set string as itself and `null` as `null` |
| `Sample.Product.ToString` | src/sample/Product.java:147-153 | starts with `Name: ` and the printed name and ends with a line separator; its length is the three field texts, the three headings and three separators |
| `Sample.ToStringDeterminesFields` | src/sample/Product.java:147-153 | two equal descriptions have equal name, manufacturer and type texts, if the separator's first character occurs in no field text |
| `Sample.ToStringConflatesNull` | src/sample/Product.java:148-152 | a `null` name and the name text `"null"` give the same description |
| `Sample.Product.ProductNameComparator` | src/sample/Product.java:160-165 | returns a value exactly when both names are set, and that value is `compareTo` of the names; returns 0 exactly when both names are set and equal |
| `Sample.ComparatorSwap` | src/sample/Product.java:160-165 | swapping the two products negates the result; a null name throws in both orders |
| `Sample.ComparatorTransitive` | src/sample/Product.java:155-165 | `<= 0` is transitive, and so is `< 0`; the name order can therefore drive an alphabetical sort |
| `JavaString.CompareToAtMismatch` | src/sample/Product.java:164 | `compareTo` is the difference of the characters at the first position where the strings differ, or the difference of the lengths when one string is a prefix of the other |
| `JavaString.CompareTo` | src/sample/Product.java:164 | models `String.compareTo` (the difference of the first pair of differing characters, else the length difference, as `CompareToAtMismatch` proves); its contract: 0 if and only if the strings are equal |
| `JavaString.CompareToAntisymmetric` | src/sample/Product.java:164 | `compareTo(b, a) == -compareTo(a, b)` |
| `JavaString.CompareToTransitive` | src/sample/Product.java:164 | if `a < b` and `b < c`, then `a < c` |
| `JavaString.CompareToTransitiveNonStrict` | src/sample/Product.java:164 | if `a <= b` and `b <= c`, then `a <= c` |
| `JavaString.CompareToNegativeIffLexLess` | src/sample/Product.java:164 | `compareTo` is negative if and only if `a` comes before `b` in lexicographic order: either a proper prefix, or smaller at the first position where they differ |

## Left out

- Console output: `System.out.println` is not modelled. `PrintType` returns the emitted products instead of printing them.
- The value of `%n` is not fixed. `ToString` takes the line separator as a parameter.
- `Collections.sort` and the `Comparator` interface are not modelled. Only the comparison function is modelled, so sort stability is not covered.
- The `Item` interface and the `ItemType` enum are not part of this model. Neither are the concrete subclasses `AudioPlayer` and `MoviePlayer`. The `ItemType` argument is reduced to its string tag.
- `Sample.Product.PrintType`: the list is a `seq` of non-null products and the tag is a non-null string. Two Java failures are therefore not modelled: a `null` element in the `ArrayList`, and a `null` `ItemType` argument (both would throw a `NullPointerException`).
- `Sample.Product.ProductNameComparator`: `p1` and `p2` are non-null `Product` references. Java's lambda throws a `NullPointerException` at `p1.getName()` or `p2.getName()` when it is handed a `null` product, which `Collections.sort` does for a list holding a `null`. That exception path is not modelled; only a `null` name is.
- `JavaString.CompareTo`: Java compares strings UTF-16 code unit by code unit. Dafny's `char` is a Unicode scalar value. The two agree on the Basic Multilingual Plane. For characters outside it, Java compares surrogate code units, and the model compares code points.
- Null arguments to `compareTo` are handled in `ProductNameComparator`, not in `CompareTo`, whose arguments are always set strings.
