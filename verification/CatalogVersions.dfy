/**
  * Version precedence (item 11 of Semantic Versioning 2.0.0) as the model catalog compares versions, and
  * the selection of a catalog revision for a version.
  */
module CatalogVersions {

  import opened Streams

  /** `prerelease`: the dot-separated identifiers; none for a release. */
  datatype Version = Version(major: nat, minor: nat, patch: nat, prerelease: seq<string>)

  /** How the platform reads a number and orders two strings. */
  datatype Platform = Platform(number: string -> int, collate: (string, string) -> int)

  predicate Digits(s: string) { s != "" && forall i :: 0 <= i < |s| ==> '0' <= s[i] <= '9' }

  /** Strings are totally ordered. */
  ghost predicate Collates(p: Platform) {
    && (forall a, b :: p.collate(a, b) == 0 <==> a == b)
    && (forall a, b :: p.collate(a, b) < 0 <==> p.collate(b, a) > 0)
    && (forall a, b, c :: p.collate(a, b) < 0 && p.collate(b, c) < 0 ==> p.collate(a, c) < 0)
  }

  // ---------------------------------------------------------------------------------------------
  // Precedence as the standard states it

  /** Numeric identifiers numerically and below all others, the others in string order. */
  predicate IdentifierBelow(p: Platform, a: string, b: string) {
    if Digits(a) && Digits(b) then p.number(a) < p.number(b)
    else if Digits(a) || Digits(b) then Digits(a)
    else p.collate(a, b) < 0
  }

  /** The first difference decides; of two where one starts with the other, the longer is higher. */
  predicate PrereleaseBelow(p: Platform, a: seq<string>, b: seq<string>) {
    exists k :: 0 <= k <= |a| && k <= |b| && a[..k] == b[..k] &&
      if k < |a| && k < |b| then a[k] != b[k] && IdentifierBelow(p, a[k], b[k]) else k == |a| < |b|
  }

  /** A prerelease is below its release. */
  predicate Below(p: Platform, a: Version, b: Version) {
    if a.major != b.major then a.major < b.major
    else if a.minor != b.minor then a.minor < b.minor
    else if a.patch != b.patch then a.patch < b.patch
    else if a.prerelease == [] || b.prerelease == [] then a.prerelease != [] && b.prerelease == []
    else PrereleaseBelow(p, a.prerelease, b.prerelease)
  }

  // ---------------------------------------------------------------------------------------------
  // Precedence as it is computed

  function OrderIdentifier(p: Platform, a: string, b: string): int {
    if Digits(a) && Digits(b) then p.number(a) - p.number(b)
    else if Digits(a) then -1
    else if Digits(b) then 1
    else p.collate(a, b)
  }

  function OrderPrerelease(p: Platform, a: seq<string>, b: seq<string>): int {
    if a == [] && b == [] then 0
    else if a == [] then -1
    else if b == [] then 1
    else if a[0] == b[0] then OrderPrerelease(p, a[1..], b[1..])
    else OrderIdentifier(p, a[0], b[0])
  }

  function Order(p: Platform, a: Version, b: Version): int {
    if a.major != b.major then a.major - b.major
    else if a.minor != b.minor then a.minor - b.minor
    else if a.patch != b.patch then a.patch - b.patch
    else if a.prerelease == b.prerelease then 0
    else if a.prerelease == [] then 1
    else if b.prerelease == [] then -1
    else OrderPrerelease(p, a.prerelease, b.prerelease)
  }

  /** `comparePiVersions`. */
  method ComparePiVersions(p: Platform, left: Version, right: Version) returns (difference: int)
    ensures difference == Order(p, left, right)
  {
    if left.major != right.major { return left.major - right.major; }
    if left.minor != right.minor { return left.minor - right.minor; }
    if left.patch != right.patch { return left.patch - right.patch; }
    if left.prerelease == right.prerelease { return 0; }
    if left.prerelease == [] { return 1; }
    if right.prerelease == [] { return -1; }
    var l, r := left.prerelease, right.prerelease;
    var most := if |l| > |r| then |l| else |r|;
    var index := 0;
    while index < most
      invariant 0 <= index <= most && index <= |l| && index <= |r|
      invariant OrderPrerelease(p, l, r) == OrderPrerelease(p, l[index..], r[index..])
    {
      if index == |l| { return -1; }
      if index == |r| { return 1; }
      if l[index] != r[index] {
        return OrderIdentifier(p, l[index], r[index]);
      }
      assert l[index..][1..] == l[index + 1..] && r[index..][1..] == r[index + 1..];
      index := index + 1;
    }
    return 0;
  }

  // ---------------------------------------------------------------------------------------------
  // When the computed order is precedence

  /** Among these identifiers no two numeric ones read as the same number. */
  predicate Exact(p: Platform, identifiers: set<string>) {
    forall a, b :: a in identifiers && b in identifiers && Digits(a) && Digits(b) && p.number(a) == p.number(b) ==>
      a == b
  }

  function Identifiers(v: Version): set<string> { set s | s in v.prerelease }

  lemma {:induction false} PrereleaseOrder(p: Platform, a: seq<string>, b: seq<string>)
    requires Collates(p) && Exact(p, (set s | s in a) + set s | s in b)
    ensures OrderPrerelease(p, a, b) < 0 <==> PrereleaseBelow(p, a, b)
    ensures OrderPrerelease(p, a, b) == 0 <==> a == b
    ensures OrderPrerelease(p, a, b) < 0 <==> OrderPrerelease(p, b, a) > 0
  {
    if a != [] && b != [] {
      assert a[0] in a && b[0] in b;
      if a[0] == b[0] {
        assert a == [a[0]] + a[1..] && b == [b[0]] + b[1..];
        PrereleaseOrder(p, a[1..], b[1..]);
        BelowTail(p, a, b);
      } else {
        BelowHead(p, a, b);
      }
    } else if a == [] && b != [] {
      assert a[..0] == b[..0];
    }
  }

  lemma BelowTail(p: Platform, a: seq<string>, b: seq<string>)
    requires a != [] && b != [] && a[0] == b[0]
    ensures PrereleaseBelow(p, a, b) <==> PrereleaseBelow(p, a[1..], b[1..])
  {
    var x, y := a[1..], b[1..];
    if PrereleaseBelow(p, x, y) {
      var k :| 0 <= k <= |x| && k <= |y| && x[..k] == y[..k] &&
        if k < |x| && k < |y| then x[k] != y[k] && IdentifierBelow(p, x[k], y[k]) else k == |x| < |y|;
      assert a[..k + 1] == [a[0]] + x[..k] && b[..k + 1] == [b[0]] + y[..k];
    }
    if PrereleaseBelow(p, a, b) {
      var k :| 0 <= k <= |a| && k <= |b| && a[..k] == b[..k] &&
        if k < |a| && k < |b| then a[k] != b[k] && IdentifierBelow(p, a[k], b[k]) else k == |a| < |b|;
      assert x[..k - 1] == a[..k][1..] && y[..k - 1] == b[..k][1..];
    }
  }

  lemma BelowHead(p: Platform, a: seq<string>, b: seq<string>)
    requires a != [] && b != [] && a[0] != b[0]
    ensures PrereleaseBelow(p, a, b) <==> IdentifierBelow(p, a[0], b[0])
  {
    if IdentifierBelow(p, a[0], b[0]) { assert a[..0] == b[..0]; }
    if PrereleaseBelow(p, a, b) {
      var k :| 0 <= k <= |a| && k <= |b| && a[..k] == b[..k] &&
        if k < |a| && k < |b| then a[k] != b[k] && IdentifierBelow(p, a[k], b[k]) else k == |a| < |b|;
      if k > 0 { assert a[..k][0] == b[..k][0]; }
    }
  }

  /** The computed order is item 11's precedence. */
  lemma OrderIsPrecedence(p: Platform, a: Version, b: Version)
    requires Collates(p) && Exact(p, Identifiers(a) + Identifiers(b))
    ensures Order(p, a, b) < 0 <==> Below(p, a, b)
    ensures Order(p, a, b) == 0 <==> a == b
    ensures Order(p, a, b) > 0 <==> Below(p, b, a)
  {
    PrereleaseOrder(p, a.prerelease, b.prerelease);
    assert (set s | s in a.prerelease) + (set s | s in b.prerelease) ==
      (set s | s in b.prerelease) + set s | s in a.prerelease;
    PrereleaseOrder(p, b.prerelease, a.prerelease);
  }

  lemma {:induction false} PrereleaseTransitive(p: Platform, a: seq<string>, b: seq<string>, c: seq<string>)
    requires Collates(p) && Exact(p, (set s | s in a) + (set s | s in b) + set s | s in c)
    requires OrderPrerelease(p, a, b) < 0 && OrderPrerelease(p, b, c) < 0
    ensures OrderPrerelease(p, a, c) < 0
  {
    if a != [] && b != [] && c != [] {
      assert a[0] in a && b[0] in b && c[0] in c;
      if a[0] == b[0] && b[0] == c[0] {
        PrereleaseTransitive(p, a[1..], b[1..], c[1..]);
      }
    }
  }

  lemma OrderIsTransitive(p: Platform, a: Version, b: Version, c: Version)
    requires Collates(p) && Exact(p, Identifiers(a) + Identifiers(b) + Identifiers(c))
    requires Order(p, a, b) <= 0 && Order(p, b, c) <= 0
    ensures Order(p, a, c) <= 0
    ensures Order(p, a, c) == 0 ==> a == b == c
  {
    OrderIsPrecedence(p, a, b);
    OrderIsPrecedence(p, b, c);
    OrderIsPrecedence(p, a, c);
    if a != b && b != c {
      if OrderPrerelease(p, a.prerelease, b.prerelease) < 0 && OrderPrerelease(p, b.prerelease, c.prerelease) < 0 {
        PrereleaseTransitive(p, a.prerelease, b.prerelease, c.prerelease);
      }
      PrereleaseOrder(p, a.prerelease, c.prerelease);
    }
  }

  /** Versions whose prerelease identifiers are among `identifiers`. */
  ghost predicate Transitive(p: Platform, identifiers: set<string>) {
    forall x, y, z {:trigger Order(p, x, y), Order(p, y, z)} ::
      (Identifiers(x) <= identifiers && Identifiers(y) <= identifiers && Identifiers(z) <= identifiers
       && Order(p, x, y) <= 0 && Order(p, y, z) <= 0) ==> Order(p, x, z) <= 0
  }

  /**
    * Versions are ordered exactly when no two numeric identifiers read as one number: `01` and `1`, or two
    * too long to be read exactly, hide whatever follows them.
    */
  lemma TransitiveIffExact(p: Platform, identifiers: set<string>)
    requires Collates(p)
    ensures Transitive(p, identifiers) <==> Exact(p, identifiers)
  {
    if Exact(p, identifiers) {
      forall x, y, z | Identifiers(x) <= identifiers && Identifiers(y) <= identifiers && Identifiers(z) <= identifiers
        && Order(p, x, y) <= 0 && Order(p, y, z) <= 0
        ensures Order(p, x, z) <= 0
      {
        OrderIsTransitive(p, x, y, z);
      }
    }
    if Transitive(p, identifiers) {
      forall a, b | a in identifiers && b in identifiers && Digits(a) && Digits(b) && p.number(a) == p.number(b)
        ensures a == b
      {
        if a != b { InexactIsNotTransitive(p, a, b, identifiers); }
      }
    }
  }

  lemma InexactIsNotTransitive(p: Platform, a: string, b: string, identifiers: set<string>)
    requires a in identifiers && b in identifiers
    requires Digits(a) && Digits(b) && a != b && p.number(a) == p.number(b)
    ensures !Transitive(p, identifiers)
  {
    var x, y, z := Version(1, 0, 0, [a, a]), Version(1, 0, 0, [b]), Version(1, 0, 0, [a]);
    assert [a, a][1..] == [a] && [a][1..] == [];
    assert OrderPrerelease(p, [a], []) == 1;
    assert OrderPrerelease(p, [a, a], [a]) == OrderPrerelease(p, [a], []);
    assert OrderIdentifier(p, a, b) == 0 && OrderIdentifier(p, b, a) == 0;
    assert Order(p, x, y) == 0 && Order(p, y, z) == 0 && Order(p, x, z) == 1 by {
      assert [a, a][0] == a && [b][0] == b && [a, a] != [b] && |[a, a]| != |[a]|;
    }
    assert Identifiers(x) <= identifiers && Identifiers(y) <= identifiers && Identifiers(z) <= identifiers;
  }

  /**
    * Read in base ten, a numeric identifier and the same with a leading zero are one number: the two versions compare
    * equal, and where both may occur (`01` and `1`, say) the order is not transitive.
    */
  lemma LeadingZerosAreInexact(p: Platform, s: string, identifiers: set<string>)
    requires Collates(p) && Digits(s) && s in identifiers && "0" + s in identifiers
    requires forall d :: d in identifiers && Digits(d) ==> p.number(d) == Decimal(d)
    ensures Order(p, Version(1, 0, 0, ["0" + s]), Version(1, 0, 0, [s])) == 0
    ensures !Transitive(p, identifiers)
  {
    LeadingZero(s);
    assert |"0" + s| != |s|;
    assert OrderIdentifier(p, "0" + s, s) == 0;
    InexactIsNotTransitive(p, "0" + s, s, identifiers);
  }

  lemma {:induction false} LeadingZero(s: string)
    requires Digits(s)
    ensures Digits("0" + s) && Decimal("0" + s) == Decimal(s)
  {
    assert ("0" + s)[..|s|] == "0" + s[..|s| - 1];
    if |s| > 1 {
      LeadingZero(s[..|s| - 1]);
    } else {
      assert "0" + s[..0] == "0" && "0"[..0] == "" && Decimal("0") == 0;
    }
  }

  // --- which identifiers are exact ---

  function Digit(c: char): (d: nat)
    requires '0' <= c <= '9'
    ensures d < 10
  {
    c as int - '0' as int
  }

  lemma DigitIsInjective(a: char, b: char)
    requires '0' <= a <= '9' && '0' <= b <= '9' && Digit(a) == Digit(b)
    ensures a == b
  {
  }

  function Decimal(s: string): nat
    requires forall i :: 0 <= i < |s| ==> '0' <= s[i] <= '9'
  {
    if s == "" then 0 else 10 * Decimal(s[..|s| - 1]) + Digit(s[|s| - 1])
  }

  const MAX_SAFE_INTEGER := 9007199254740991

  /** A numeric identifier as item 9 allows it, small enough to be read exactly. */
  predicate Canonical(s: string) {
    Digits(s) && (s[0] != '0' || |s| == 1) && Decimal(s) <= MAX_SAFE_INTEGER
  }

  lemma LastDigit(x: nat, d: nat, y: nat, e: nat)
    requires 10 * x + d == 10 * y + e && d < 10 && e < 10
    ensures x == y && d == e
  {
  }

  lemma {:induction false} DecimalIsInjective(a: string, b: string)
    requires Digits(a) && Digits(b) && (a[0] != '0' || |a| == 1) && (b[0] != '0' || |b| == 1)
    requires Decimal(a) == Decimal(b)
    ensures a == b
    decreases |a|
  {
    hide Decimal;
    var x, y := a[..|a| - 1], b[..|b| - 1];
    assert a == x + [a[|a| - 1]] && b == y + [b[|b| - 1]];
    SameEnd(a, b);
    NoDigits();
    if x == "" && y != "" {
      DecimalPositive(y);
    } else if x != "" && y == "" {
      DecimalPositive(x);
    } else if x != "" {
      DecimalIsInjective(x, y);
    }
  }

  lemma NoDigits()
    ensures Decimal("") == 0
  {
  }

  lemma DecimalEnds(s: string)
    requires Digits(s)
    ensures Decimal(s) == 10 * Decimal(s[..|s| - 1]) + Digit(s[|s| - 1])
  {
  }

  /** Equal numbers end in the same digit, and are equal before it. */
  lemma SameEnd(a: string, b: string)
    requires Digits(a) && Digits(b) && Decimal(a) == Decimal(b)
    ensures Decimal(a[..|a| - 1]) == Decimal(b[..|b| - 1]) && a[|a| - 1] == b[|b| - 1]
  {
    hide Digit, Decimal;
    DecimalEnds(a);
    DecimalEnds(b);
    LastDigit(Decimal(a[..|a| - 1]), Digit(a[|a| - 1]), Decimal(b[..|b| - 1]), Digit(b[|b| - 1]));
    DigitIsInjective(a[|a| - 1], b[|b| - 1]);
  }

  lemma {:induction false} DecimalPositive(s: string)
    requires Digits(s) && s[0] != '0'
    ensures Decimal(s) > 0
  {
    if |s| > 1 { DecimalPositive(s[..|s| - 1]); }
  }

  /** Without leading zeros, and within the integers a number holds exactly, identifiers are exact. */
  lemma CanonicalIsExact(p: Platform, identifiers: set<string>)
    requires forall s :: s in identifiers && Digits(s) ==> Canonical(s) && p.number(s) == Decimal(s)
    ensures Exact(p, identifiers)
  {
    forall a, b | a in identifiers && b in identifiers && Digits(a) && Digits(b) && p.number(a) == p.number(b)
      ensures a == b
    {
      DecimalIsInjective(a, b);
    }
  }

  // ---------------------------------------------------------------------------------------------
  // Selecting a revision

  /** `minimum` is `None` when the stored version does not parse. */
  datatype Entry = Entry(minimum: Option<Version>, revision: string)

  datatype Request = NoVersion | BadVersion | For(version: Version)

  datatype Selection = Selected(index: nat) | NoCatalog | Thrown

  function AllIdentifiers(catalogs: seq<Entry>, requested: Version): set<string> {
    Identifiers(requested) + set i, s | 0 <= i < |catalogs| && catalogs[i].minimum.Some? &&
        s in catalogs[i].minimum.value.prerelease :: s
  }

  predicate AtMost(p: Platform, catalogs: seq<Entry>, i: nat, requested: Version) {
    i < |catalogs| && catalogs[i].minimum.Some? && Order(p, catalogs[i].minimum.value, requested) <= 0
  }

  /** `i` has the highest minimum that does not exceed the request, the first of those. */
  predicate Best(p: Platform, catalogs: seq<Entry>, i: nat, requested: Version) {
    && AtMost(p, catalogs, i, requested)
    && forall j :: 0 <= j < |catalogs| && AtMost(p, catalogs, j, requested) ==>
         Order(p, catalogs[j].minimum.value, catalogs[i].minimum.value) <= 0
         && (catalogs[j].minimum == catalogs[i].minimum ==> i <= j)
  }

  /** `selectModelCatalog`. The choice is the best one where versions are ordered (`TransitiveIffExact`). */
  method SelectModelCatalog(p: Platform, catalogs: seq<Entry>, defaultRevision: string, request: Request)
      returns (r: Selection)
    ensures request.NoVersion? && r.Selected? ==> r.index < |catalogs| && catalogs[r.index].revision == defaultRevision
    ensures request.NoVersion? && r.Selected? ==> forall j :: 0 <= j < r.index ==>
      catalogs[j].revision != defaultRevision
    ensures request.NoVersion? && !r.Selected? ==>
      r == NoCatalog && forall j :: 0 <= j < |catalogs| ==> catalogs[j].revision != defaultRevision
    ensures request.BadVersion? ==> r == NoCatalog
    ensures request.For? ==> (r.Thrown? <==> exists j :: 0 <= j < |catalogs| && catalogs[j].minimum.None?)
    ensures request.For? && !r.Thrown? ==>
      (r.NoCatalog? <==> forall j :: 0 <= j < |catalogs| ==> !AtMost(p, catalogs, j, request.version))
    ensures request.For? && r.Selected? ==> AtMost(p, catalogs, r.index, request.version)
    ensures request.For? && r.Selected? && Collates(p) && Exact(p, AllIdentifiers(catalogs, request.version)) ==>
      Best(p, catalogs, r.index, request.version)
  {
    if request.NoVersion? {
      for i := 0 to |catalogs|
        invariant forall j :: 0 <= j < i ==> catalogs[j].revision != defaultRevision
      {
        if catalogs[i].revision == defaultRevision { return Selected(i); }
      }
      return NoCatalog;
    }
    if request.BadVersion? { return NoCatalog; }
    var requested := request.version;
    ghost var ordered := Collates(p) && Exact(p, AllIdentifiers(catalogs, requested));
    r := NoCatalog;
    for i := 0 to |catalogs|
      invariant !r.Thrown?
      invariant forall j :: 0 <= j < i ==> catalogs[j].minimum.Some?
      invariant r.NoCatalog? ==> forall j :: 0 <= j < i ==> !AtMost(p, catalogs, j, requested)
      invariant r.Selected? ==> r.index < i && AtMost(p, catalogs, r.index, requested)
      invariant r.Selected? && ordered ==> Best(p, catalogs[..i], r.index, requested)
    {
      if catalogs[i].minimum.None? { return Thrown; }
      var minimum := catalogs[i].minimum.value;
      var above := ComparePiVersions(p, minimum, requested);
      if r.Selected? && ordered { BestOfMore(p, catalogs, r.index, i, requested); }
      if above <= 0 {
        if r.NoCatalog? {
          OnlyOneIsBest(p, catalogs, i, requested);
          r := Selected(i);
        } else {
          var higher := ComparePiVersions(p, minimum, catalogs[r.index].minimum.value);
          if higher > 0 { r := Selected(i); }
        }
      }
    }
    assert catalogs[..|catalogs|] == catalogs;
  }

  lemma ExactParts(p: Platform, catalogs: seq<Entry>, requested: Version, i: nat, j: nat, k: nat)
    requires Exact(p, AllIdentifiers(catalogs, requested)) && i < |catalogs| && j < |catalogs| && k < |catalogs|
    requires catalogs[i].minimum.Some? && catalogs[j].minimum.Some? && catalogs[k].minimum.Some?
    ensures var (a, b, c) := (catalogs[i].minimum.value, catalogs[j].minimum.value, catalogs[k].minimum.value);
      Exact(p, Identifiers(a) + Identifiers(b) + Identifiers(c))
  {
    var (a, b, c) := (catalogs[i].minimum.value, catalogs[j].minimum.value, catalogs[k].minimum.value);
    assert Identifiers(a) + Identifiers(b) + Identifiers(c) <= AllIdentifiers(catalogs, requested);
  }

  lemma OnlyOneIsBest(p: Platform, catalogs: seq<Entry>, i: nat, requested: Version)
    requires i < |catalogs| && AtMost(p, catalogs, i, requested)
    requires forall j :: 0 <= j < i ==> !AtMost(p, catalogs, j, requested)
    ensures Best(p, catalogs[..i + 1], i, requested)
  {
    var prefix := catalogs[..i + 1];
    forall j | 0 <= j < |prefix| ensures AtMost(p, prefix, j, requested) == AtMost(p, catalogs, j, requested) {
    }
    assert prefix[i] == catalogs[i] && Order(p, prefix[i].minimum.value, prefix[i].minimum.value) == 0;
  }

  /** One more entry: the best so far stays, or the new one is strictly higher. */
  lemma BestOfMore(p: Platform, catalogs: seq<Entry>, best: nat, i: nat, requested: Version)
    requires Collates(p) && Exact(p, AllIdentifiers(catalogs, requested))
    requires best < i < |catalogs| && Best(p, catalogs[..i], best, requested) && catalogs[i].minimum.Some?
    ensures Best(p, catalogs[..i + 1],
      if AtMost(p, catalogs, i, requested) &&
        Order(p, catalogs[i].minimum.value, catalogs[best].minimum.value) > 0 then i else best,
      requested)
  {
    var top := if AtMost(p, catalogs, i, requested) &&
      Order(p, catalogs[i].minimum.value, catalogs[best].minimum.value) > 0 then i else best;
    var more := catalogs[..i + 1];
    forall j | 0 <= j < |more| && AtMost(p, more, j, requested)
      ensures Order(p, more[j].minimum.value, more[top].minimum.value) <= 0
      ensures more[j].minimum == more[top].minimum ==> top <= j
    {
      if j < i { assert AtMost(p, catalogs[..i], j, requested); }
      ExactParts(p, catalogs, requested, j, best, i);
      assert Exact(p, Identifiers(catalogs[best].minimum.value) + Identifiers(catalogs[i].minimum.value));
      OrderIsPrecedence(p, catalogs[best].minimum.value, catalogs[i].minimum.value);
      OrderIsPrecedence(p, catalogs[i].minimum.value, catalogs[best].minimum.value);
      if j < i && top == i {
        OrderIsTransitive(p, more[j].minimum.value, catalogs[best].minimum.value, catalogs[i].minimum.value);
      }
    }
  }

  /** A higher request never gets a lower revision. */
  lemma SelectionIsMonotone(p: Platform, catalogs: seq<Entry>, low: Version, high: Version, i: nat, j: nat)
    requires Collates(p) && Exact(p, AllIdentifiers(catalogs, low) + Identifiers(high))
    requires Order(p, low, high) <= 0 && Best(p, catalogs, i, low) && Best(p, catalogs, j, high)
    ensures Order(p, catalogs[i].minimum.value, catalogs[j].minimum.value) <= 0
  {
    var all := AllIdentifiers(catalogs, low) + Identifiers(high);
    assert Identifiers(catalogs[i].minimum.value) + Identifiers(low) + Identifiers(high) <= all by {
      assert Identifiers(catalogs[i].minimum.value) <= AllIdentifiers(catalogs, low);
    }
    OrderIsTransitive(p, catalogs[i].minimum.value, low, high);
    assert AtMost(p, catalogs, i, high);
  }
}
