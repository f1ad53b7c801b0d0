/** The key builder of pkg/cache and the keys Product Service makes with it. */
module CacheKeys {
  import opened Basics

  const NAMESPACE := "product-service"
  const SEARCH := NAMESPACE + ":search"
  const PRODUCT := NAMESPACE + ":product"

  // ------------------------------------------------------------ number text

  function Digit(d: nat): char
    requires d < 10
  {
    '0' + d as char
  }

  function DigitValue(c: char): int { c as int - '0' as int }

  function Digits(n: nat): (text: string)
    ensures text != [] && forall i :: 0 <= i < |text| ==> '0' <= text[i] <= '9'
  {
    if n < 10 then [Digit(n)] else Digits(n / 10) + [Digit(n % 10)]
  }

  /** strconv.Itoa */
  function Itoa(n: int): string {
    if n < 0 then "-" + Digits(-n) else Digits(n)
  }

  function Value(text: string): int {
    if text == [] then 0 else 10 * Value(text[..|text| - 1]) + DigitValue(text[|text| - 1])
  }

  lemma {:induction false} DigitsRoundTrip(n: nat)
    ensures Value(Digits(n)) == n
  {
    if n < 10 {
      assert Digits(n)[..0] == [];
    } else {
      DigitsRoundTrip(n / 10);
      assert Digits(n)[..|Digits(n)| - 1] == Digits(n / 10);
    }
  }

  lemma DigitsInjective(a: nat, b: nat)
    requires Digits(a) == Digits(b)
    ensures a == b
  {
    DigitsRoundTrip(a);
    DigitsRoundTrip(b);
  }

  lemma ItoaSign(n: int)
    ensures Itoa(n) != [] && (Itoa(n)[0] == '-' <==> n < 0)
  {
  }

  lemma ItoaInjective(a: int, b: int)
    requires Itoa(a) == Itoa(b)
    ensures a == b
  {
    ItoaSign(a);
    ItoaSign(b);
    if a < 0 {
      assert Itoa(a)[1..] == Digits(-a) && Itoa(b)[1..] == Digits(-b);
      DigitsInjective(-a, -b);
    } else {
      DigitsInjective(a, b);
    }
  }

  lemma ItoaHasNoColon(n: int)
    ensures ':' !in Itoa(n)
  {
  }

  // ------------------------------------------------------------ key builder

  /** strings.Join(parts, ":") */
  function Join(parts: seq<string>): string
    requires parts != []
  {
    if |parts| == 1 then parts[0] else parts[0] + ":" + Join(parts[1..])
  }

  /** KeyBuilder.Build */
  function Build(namespace: string, parts: seq<string>): string {
    Join([namespace] + parts)
  }

  /** Stands for uuid.String(): injective, and free of ':'. */
  function IdText(id: Id): string { Itoa(id) }

  function ProductKey(id: Id): string {
    Build(PRODUCT, [IdText(id)])
  }

  datatype SearchArgs = SearchArgs(query: string, category: string, limit: int, offset: int)

  /** The category comes first, then the query. */
  function SearchKey(a: SearchArgs): string {
    Build(SEARCH, [a.category, a.query, Itoa(a.limit), Itoa(a.offset)])
  }

  // ------------------------------------------------------------- injectivity

  lemma ColonInside(x: string, a: string, y: string, b: string)
    requires x + ":" + a == y + ":" + b && |x| < |y|
    ensures ':' in y && ':' in a
  {
    var s := x + ":" + a;
    assert s == y + ":" + b;
    assert s[|x|] == ':' == y[|x|];
    assert s[|y|] == ':' == a[|y| - |x| - 1];
  }

  lemma SameLength(x: string, a: string, y: string, b: string)
    requires x + ":" + a == y + ":" + b && |x| == |y|
    ensures x == y && a == b
  {
    var s := x + ":" + a;
    assert s == y + ":" + b;
    assert x == s[..|x|] && y == s[..|x|];
    assert a == s[|x| + 1..] && b == s[|x| + 1..];
  }

  lemma FirstColon(x: string, a: string, y: string, b: string)
    requires ':' !in x && ':' !in y && x + ":" + a == y + ":" + b
    ensures x == y && a == b
  {
    assert |x| >= |y| by { if |x| < |y| { ColonInside(x, a, y, b); } }
    assert |y| >= |x| by { if |y| < |x| { ColonInside(y, b, x, a); } }
    SameLength(x, a, y, b);
  }

  lemma LastColon(a: string, x: string, b: string, y: string)
    requires ':' !in x && ':' !in y && a + ":" + x == b + ":" + y
    ensures a == b && x == y
  {
    assert |a| >= |b| by { if |a| < |b| { ColonInside(a, x, b, y); } }
    assert |b| >= |a| by { if |b| < |a| { ColonInside(b, y, a, x); } }
    SameLength(a, x, b, y);
  }

  function Middle(a: SearchArgs): string { a.category + ":" + a.query }

  lemma SearchKeyShape(a: SearchArgs)
    ensures SearchKey(a) == SEARCH + ":" + Middle(a) + ":" + Itoa(a.limit) + ":" + Itoa(a.offset)
  {
    var l, o := Itoa(a.limit), Itoa(a.offset);
    var parts := [SEARCH] + [a.category, a.query, l, o];
    assert parts[1..] == [a.category, a.query, l, o];
    assert parts[1..][1..] == [a.query, l, o];
    assert parts[1..][1..][1..] == [l, o];
    assert parts[1..][1..][1..][1..] == [o];
    assert Join([l, o]) == l + ":" + o;
    assert Join([a.query, l, o]) == a.query + ":" + (l + ":" + o);
    assert Join([a.category, a.query, l, o]) == a.category + ":" + (a.query + ":" + (l + ":" + o));
    assert SearchKey(a) == SEARCH + ":" + (a.category + ":" + (a.query + ":" + (l + ":" + o)));
  }

  lemma ProductKeyShape(id: Id)
    ensures ProductKey(id) == PRODUCT + ":" + IdText(id)
  {
    var parts := [PRODUCT] + [IdText(id)];
    assert parts[1..] == [IdText(id)];
    assert Join(parts) == PRODUCT + ":" + Join([IdText(id)]);
  }

  /** Same limit, same offset, and the same text once category and query are joined by ':'. */
  predicate Alike(a: SearchArgs, b: SearchArgs) {
    Middle(a) == Middle(b) && a.limit == b.limit && a.offset == b.offset
  }

  /** Exactly when two searches share a cache key. */
  lemma SearchKeysCollide(a: SearchArgs, b: SearchArgs)
    ensures SearchKey(a) == SearchKey(b) <==> Alike(a, b)
  {
    SearchKeyShape(a);
    SearchKeyShape(b);
    if SearchKey(a) == SearchKey(b) {
      ItoaHasNoColon(a.limit); ItoaHasNoColon(b.limit);
      ItoaHasNoColon(a.offset); ItoaHasNoColon(b.offset);
      var head := SEARCH + ":";
      LastColon(head + Middle(a) + ":" + Itoa(a.limit), Itoa(a.offset),
                head + Middle(b) + ":" + Itoa(b.limit), Itoa(b.offset));
      LastColon(head + Middle(a), Itoa(a.limit), head + Middle(b), Itoa(b.limit));
      assert Middle(a) == (head + Middle(a))[|head|..];
      assert Middle(b) == (head + Middle(b))[|head|..];
      ItoaInjective(a.limit, b.limit);
      ItoaInjective(a.offset, b.offset);
    }
  }

  /** For categories free of ':', whatever the queries contain, equal keys mean equal arguments. */
  lemma SearchKeyInjective(a: SearchArgs, b: SearchArgs)
    requires ':' !in a.category && ':' !in b.category && SearchKey(a) == SearchKey(b)
    ensures a == b
  {
    SearchKeysCollide(a, b);
    FirstColon(a.category, a.query, b.category, b.query);
  }

  /** A category containing ':' can share its key with another search, even one whose category does not. */
  lemma ColonInCategoryCollides()
    ensures var a, b := SearchArgs("c", "a:b", 20, 0), SearchArgs("b:c", "a", 20, 0);
            a != b && SearchKey(a) == SearchKey(b) && ':' !in b.category
  {
    var a, b := SearchArgs("c", "a:b", 20, 0), SearchArgs("b:c", "a", 20, 0);
    assert Middle(a) == "a:b:c" == Middle(b);
    SearchKeysCollide(a, b);
  }

  function ColonAt(text: string): (k: nat)
    requires ':' in text
    ensures k < |text| && text[k] == ':' && ':' !in text[..k]
  {
    if text[0] == ':' then 0 else
      var k := ColonAt(text[1..]);
      assert text[..k + 1] == [text[0]] + text[1..][..k];
      k + 1
  }

  /** The search, with a category free of ':', that this one can take the place of. */
  function Victim(a: SearchArgs): (b: SearchArgs)
    requires ':' in a.category
    ensures b != a && Alike(a, b) && ':' !in b.category
  {
    var c, k := a.category, ColonAt(a.category);
    assert c == c[..k] + ":" + c[k + 1..];
    a.(category := c[..k], query := c[k + 1..] + ":" + a.query)
  }

  /**
   A search can take the place of another one, whose own category is free of ':', if and only if its category
   contains ':'.
   */
  lemma SpoilsExactlyWithColon(a: SearchArgs)
    ensures (exists b :: b != a && SearchKey(b) == SearchKey(a) && ':' !in b.category) <==> ':' in a.category
  {
    if ':' in a.category {
      SearchKeysCollide(a, Victim(a));
    } else {
      forall b | SearchKey(b) == SearchKey(a) && ':' !in b.category ensures b == a {
        SearchKeyInjective(a, b);
      }
    }
  }

  lemma ProductKeyInjective(x: Id, y: Id)
    requires ProductKey(x) == ProductKey(y)
    ensures x == y
  {
    ProductKeyShape(x);
    ProductKeyShape(y);
    var head := PRODUCT + ":";
    assert IdText(x) == (head + IdText(x))[|head|..];
    assert IdText(y) == (head + IdText(y))[|head|..];
    ItoaInjective(x, y);
  }

  /** No search key is a product key. */
  lemma KeySpacesDisjoint(a: SearchArgs, id: Id)
    ensures SearchKey(a) != ProductKey(id)
  {
    SearchKeyShape(a);
    ProductKeyShape(id);
    assert SearchKey(a)[16] == 's';
    assert ProductKey(id)[16] == 'p';
  }
}
