/**
 * The abstract `Product` record: four mutable fields with getters and setters,
 * its three-line `toString`, the type-filtered listing `printType` and the
 * name comparator used to sort products alphabetically.
 */
module Sample {
  import opened Wrappers
  import JavaString

  /** What `String.format("%s", v)` prints for a possibly-null string. */
  function Show(v: Option<string>): (s: string)
    ensures v.Some? ==> s == v.value
    ensures v.None? ==> s == "null"
  {
    match v
    case None => "null"
    case Some(x) => x
  }

  class Product {
    var id: int
    var name: Option<string>
    var manufacturer: Option<string>
    // `type` in the source; the word is reserved in Dafny
    var itemType: Option<string>

    /** Sets only the name; the other fields keep Java's defaults. */
    constructor (name: Option<string>)
      ensures this.name == name
      ensures id == 0 && manufacturer == None && itemType == None
    {
      // Java's default values for fields the constructor does not assign
      id, manufacturer, itemType := 0, None, None;
      this.name := name;
    }

    function GetId(): (r: int)
      reads this
      ensures r == id
    {
      id
    }

    method SetId(id: int)
      modifies this
      ensures GetId() == id
      ensures name == old(name) && manufacturer == old(manufacturer) && itemType == old(itemType)
    {
      this.id := id;
    }

    function GetName(): (r: Option<string>)
      reads this
      ensures r == name
    {
      name
    }

    method SetName(name: Option<string>)
      modifies this
      ensures GetName() == name
      ensures id == old(id) && manufacturer == old(manufacturer) && itemType == old(itemType)
    {
      this.name := name;
    }

    function GetManufacturer(): (r: Option<string>)
      reads this
      ensures r == manufacturer
    {
      manufacturer
    }

    method SetManufacturer(manufacturer: Option<string>)
      modifies this
      ensures GetManufacturer() == manufacturer
      ensures id == old(id) && name == old(name) && itemType == old(itemType)
    {
      this.manufacturer := manufacturer;
    }

    function GetType(): (r: Option<string>)
      reads this
      ensures r == itemType
    {
      itemType
    }

    method SetType(itemType: Option<string>)
      modifies this
      ensures GetType() == itemType
      ensures id == old(id) && name == old(name) && manufacturer == old(manufacturer)
    {
      this.itemType := itemType;
    }

    /**
     * The description `Name: …`, `Manufacturer: …`, `Type: …`, each line ended by
     * the platform line separator, built from the fields as they are now.
     */
    function ToString(lineSeparator: string): (s: string)
      reads this
      ensures |s| == 26 + |Show(name)| + |Show(manufacturer)| + |Show(itemType)| + 3 * |lineSeparator|
      ensures s[..6] == "Name: " && s[6..6 + |Show(name)|] == Show(name)
      ensures s[|s| - |lineSeparator|..] == lineSeparator
    {
      Describe(Show(name), Show(manufacturer), Show(itemType), lineSeparator)
    }

    /**
     * `printType`: walks the list in order and emits each product whose type equals
     * the tag. `p.getType().equals(tag)` throws a NullPointerException at the first
     * product whose type is unset; what was emitted before it stays emitted.
     * Nothing is modified.
     */
    static method PrintType(productLine: seq<Product>, tag: string) returns (emitted: seq<Product>, threw: bool)
      ensures threw <==> FirstUnset(productLine) < |productLine|
      ensures emitted == Matching(productLine[..FirstUnset(productLine)], tag)
      ensures (forall p | p in productLine :: p.itemType.Some?) ==> !threw && emitted == Matching(productLine, tag)
      ensures (forall p | p in productLine :: p.itemType != Some(tag)) ==> emitted == []
    {
      emitted, threw := [], false;
      var i := 0;
      while i < |productLine|
        invariant 0 <= i <= |productLine|
        invariant forall j :: 0 <= j < i ==> productLine[j].itemType.Some?
        invariant emitted == Matching(productLine[..i], tag)
      {
        var p := productLine[i];
        var t := p.GetType();
        if t.None? {
          threw := true;
          break;
        }
        assert productLine[..i + 1][..i] == productLine[..i];
        if t.value == tag {
          emitted := emitted + [p];
        }
        i := i + 1;
      }
      assert FirstUnset(productLine) == i;
      if threw {
        assert productLine[i] in productLine;
      } else {
        assert productLine[..i] == productLine;
      }
      if forall p | p in productLine :: p.itemType != Some(tag) {
        MatchingNoneMatch(productLine[..i], tag);
      }
    }

    /** `ProductNameComparator`: `p1.getName().compareTo(p2.getName())`. */
    static function ProductNameComparator(p1: Product, p2: Product): (r: Outcome<int>)
      reads p1, p2
      ensures r.Returned? <==> p1.name.Some? && p2.name.Some?
      ensures r.Returned? ==> r.value == JavaString.CompareTo(p1.name.value, p2.name.value)
      ensures r == Returned(0) <==> p1.name.Some? && p1.name == p2.name
    {
      var name1, name2 := p1.GetName(), p2.GetName();
      if name1.None? || name2.None? then NullPointerException
      else
        Returned(JavaString.CompareTo(name1.value, name2.value))
    }
  }

  /** Index of the first product whose type is unset, or the length if there is none. */
  function FirstUnset(ps: seq<Product>): (k: nat)
    reads ps
    ensures k <= |ps|
    ensures forall j :: 0 <= j < k ==> ps[j].itemType.Some?
    ensures k < |ps| ==> ps[k].itemType.None?
  {
    if ps == [] || ps[0].itemType.None? then 0 else 1 + FirstUnset(ps[1..])
  }

  /** The products of `ps` whose type is `tag`, in list order (a filter). */
  function Matching(ps: seq<Product>, tag: string): (r: seq<Product>)
    reads ps
  {
    if ps == [] then []
    else
      var last := ps[|ps| - 1];
      Matching(ps[..|ps| - 1], tag) + (if last.itemType == Some(tag) then [last] else [])
  }

  /** `xs` is obtained from `ys` by deleting elements, keeping the order of the rest. */
  predicate Subsequence<T(==)>(xs: seq<T>, ys: seq<T>)
  {
    if xs == [] then true
    else if ys == [] then false
    else if xs[|xs| - 1] == ys[|ys| - 1] then Subsequence(xs[..|xs| - 1], ys[..|ys| - 1])
    else Subsequence(xs, ys[..|ys| - 1])
  }

  /** Each product appears in the listing as often as in the list if it matches, else never. */
  lemma {:induction false} MatchingMultiplicity(ps: seq<Product>, tag: string, p: Product)
    ensures multiset(Matching(ps, tag))[p] == if p.itemType == Some(tag) then multiset(ps)[p] else 0
  {
    if ps != [] {
      var init, last := ps[..|ps| - 1], ps[|ps| - 1];
      MatchingMultiplicity(init, tag, p);
      assert ps == init + [last];
    }
  }

  /** A product is listed exactly when it is in the list and its type is the tag. */
  lemma {:induction false} MatchingMembers(ps: seq<Product>, tag: string, p: Product)
    ensures p in Matching(ps, tag) <==> p in ps && p.itemType == Some(tag)
  {
    MatchingMultiplicity(ps, tag, p);
    assert p in Matching(ps, tag) <==> multiset(Matching(ps, tag))[p] > 0;
    assert p in ps <==> multiset(ps)[p] > 0;
  }

  /** The listing keeps the list's relative order: it is a subsequence of it. */
  lemma {:induction false} MatchingIsSubsequence(ps: seq<Product>, tag: string)
    ensures Subsequence(Matching(ps, tag), ps)
  {
    if ps != [] {
      var init, last := ps[..|ps| - 1], ps[|ps| - 1];
      var m := Matching(init, tag);
      MatchingIsSubsequence(init, tag);
      if last.itemType == Some(tag) {
        assert (m + [last])[..|m|] == m;
      } else if m != [] {
        MatchingMembers(init, tag, m[|m| - 1]);
        assert m[|m| - 1] != last;
        assert Matching(ps, tag) == m;
        assert ps[..|ps| - 1] == init;
      }
    }
  }

  /** Nothing is listed when no product has the tag (in particular, for an empty list). */
  lemma {:induction false} MatchingNoneMatch(ps: seq<Product>, tag: string)
    requires forall p | p in ps :: p.itemType != Some(tag)
    ensures Matching(ps, tag) == []
  {
    if ps != [] {
      MatchingNoneMatch(ps[..|ps| - 1], tag);
    }
  }

  /** Swapping the products negates the comparison; a null name throws either way. */
  lemma ComparatorSwap(p1: Product, p2: Product)
    ensures Product.ProductNameComparator(p2, p1) ==
            match Product.ProductNameComparator(p1, p2)
            case Returned(c) => Returned(-c)
            case NullPointerException => NullPointerException
  {
    if p1.name.Some? && p2.name.Some? {
      JavaString.CompareToAntisymmetric(p1.name.value, p2.name.value);
    }
  }

  /** The induced name order is transitive, so it can drive an alphabetical sort. */
  lemma ComparatorTransitive(p1: Product, p2: Product, p3: Product)
    requires Product.ProductNameComparator(p1, p2).Returned? && Product.ProductNameComparator(p1, p2).value <= 0
    requires Product.ProductNameComparator(p2, p3).Returned? && Product.ProductNameComparator(p2, p3).value <= 0
    ensures Product.ProductNameComparator(p1, p3).Returned? && Product.ProductNameComparator(p1, p3).value <= 0
    ensures Product.ProductNameComparator(p1, p2).value < 0 ==> Product.ProductNameComparator(p1, p3).value < 0
  {
    var a, b, c := p1.name.value, p2.name.value, p3.name.value;
    JavaString.CompareToTransitiveNonStrict(a, b, c);
    if JavaString.CompareTo(a, b) < 0 && JavaString.CompareTo(b, c) < 0 {
      JavaString.CompareToTransitive(a, b, c);
    }
  }

  /** One line of the description: a heading, a value and the line separator. */
  function Line(heading: string, value: string, lineSeparator: string): (s: string)
  {
    heading + value + lineSeparator
  }

  /** The three-line layout of `toString`, over the texts the fields print as. */
  function Describe(name: string, manufacturer: string, itemType: string, lineSeparator: string): (s: string)
  {
    Line("Name: ", name, lineSeparator)
    + (Line("Manufacturer: ", manufacturer, lineSeparator) + Line("Type: ", itemType, lineSeparator))
  }

  /**
   * The description determines what each field prints as, provided the first
   * character of the line separator occurs in none of the three field texts.
   */
  lemma ToStringDeterminesFields(p: Product, q: Product, lineSeparator: string)
    requires |lineSeparator| > 0
    requires lineSeparator[0] !in Show(p.name) && lineSeparator[0] !in Show(q.name)
    requires lineSeparator[0] !in Show(p.manufacturer) && lineSeparator[0] !in Show(q.manufacturer)
    requires lineSeparator[0] !in Show(p.itemType) && lineSeparator[0] !in Show(q.itemType)
    requires p.ToString(lineSeparator) == q.ToString(lineSeparator)
    ensures Show(p.name) == Show(q.name)
    ensures Show(p.manufacturer) == Show(q.manufacturer)
    ensures Show(p.itemType) == Show(q.itemType)
  {
    var sep := lineSeparator;
    var mp := Line("Manufacturer: ", Show(p.manufacturer), sep) + Line("Type: ", Show(p.itemType), sep);
    var mq := Line("Manufacturer: ", Show(q.manufacturer), sep) + Line("Type: ", Show(q.itemType), sep);
    LineCancel("Name: ", Show(p.name), mp, Show(q.name), mq, sep);
    LineCancel("Manufacturer: ", Show(p.manufacturer), Line("Type: ", Show(p.itemType), sep),
               Show(q.manufacturer), Line("Type: ", Show(q.itemType), sep), sep);
    LineCancel("Type: ", Show(p.itemType), [], Show(q.itemType), [], sep);
  }

  /** A null field and the four-letter text "null" print the same. */
  lemma ToStringConflatesNull(p: Product, q: Product, lineSeparator: string)
    requires p.name == None && q.name == Some("null")
    requires p.manufacturer == q.manufacturer && p.itemType == q.itemType
    ensures p.ToString(lineSeparator) == q.ToString(lineSeparator)
  {
  }

  /** Two texts that start with the same line (value free of the separator's first character) agree on that line and on the rest. */
  lemma LineCancel(heading: string, a: string, x: string, b: string, y: string, lineSeparator: string)
    requires |lineSeparator| > 0 && lineSeparator[0] !in a && lineSeparator[0] !in b
    requires Line(heading, a, lineSeparator) + x == Line(heading, b, lineSeparator) + y
    ensures a == b && x == y
  {
    var sep := lineSeparator;
    var s1, s2 := Line(heading, a, sep) + x, Line(heading, b, sep) + y;
    assert s1[|heading|..] == a + [sep[0]] + (sep[1..] + x);
    assert s2[|heading|..] == b + [sep[0]] + (sep[1..] + y);
    SplitAtSeparator(a, sep[1..] + x, b, sep[1..] + y, sep[0]);
    assert x == (sep[1..] + x)[|sep| - 1..];
    assert y == (sep[1..] + y)[|sep| - 1..];
  }

  /** Index of the first occurrence of `c` in `s`, or `|s|` when there is none. */
  function IndexOf(s: string, c: char): (k: nat)
  {
    if s == [] || s[0] == c then 0 else 1 + IndexOf(s[1..], c)
  }

  lemma {:induction false} IndexOfAfter(a: string, c: char, x: string)
    requires c !in a
    ensures IndexOf(a + [c] + x, c) == |a|
  {
    if a != [] {
      assert (a + [c] + x)[1..] == a[1..] + [c] + x;
      IndexOfAfter(a[1..], c, x);
    }
  }

  /** Cutting at the first occurrence of `c` recovers both pieces. */
  lemma SplitAtSeparator(a: string, x: string, b: string, y: string, c: char)
    requires c !in a && c !in b
    requires a + [c] + x == b + [c] + y
    ensures a == b && x == y
  {
    var s := a + [c] + x;
    IndexOfAfter(a, c, x);
    IndexOfAfter(b, c, y);
    assert a == s[..|a|] == b;
    assert x == s[|a| + 1..] == y;
  }

  /** Listing `[X: AUDIO, Y: MOVIE, Z: AUDIO]` by "AUDIO" gives `[X, Z]`. */
  lemma MatchingExample(x: Product, y: Product, z: Product)
    requires x.itemType == Some("AUDIO") && y.itemType == Some("MOVIE") && z.itemType == Some("AUDIO")
    ensures Matching([x, y, z], "AUDIO") == [x, z]
  {
    var line := [x, y, z];
    assert "MOVIE" != "AUDIO" by { assert "MOVIE"[0] != "AUDIO"[0]; }
    assert line[..2] == [x, y] && line[..2][..1] == [x] && line[..2][..1][..0] == [];
    assert Matching(line[..2][..1], "AUDIO") == [x];
    assert Matching(line[..2], "AUDIO") == [x];
  }

  /** A client: two products ordered by name, as an alphabetical sort would use them. */
  method OrderingExample()
  {
    var bob := new Product(Some("Bob"));
    var alice := new Product(Some("Alice"));
    assert JavaString.CompareTo("Alice", "Bob") == 'A' as int - 'B' as int;
    assert Product.ProductNameComparator(alice, bob) == Returned(-1);
    ComparatorSwap(alice, bob);
    assert Product.ProductNameComparator(bob, alice) == Returned(1);
    bob.SetName(None);
    assert Product.ProductNameComparator(alice, bob) == NullPointerException;
  }
}
