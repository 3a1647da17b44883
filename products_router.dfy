/** The catalog listing `GET /` of src/routes/products.router.js: parameter checks, the
    case-insensitive filter, the price sort and the pagination fields. The product list is the
    one the product manager returns, given here as an input. */
module ProductsRouter {
  import opened Wrappers

  /** The products come from a JSON file, so `status` may be a boolean or a string; the filter
      compares it with `true` and `false` strictly. */
  datatype StatusField = BoolStatus(b: bool) | TextStatus(s: string)

  /** A listed product with the fields the listing reads. Prices are integers (cents). */
  datatype Listed = Listed(title: string, description: string, category: string, status: StatusField, price: int)

  /** A query parameter after `parseInt`: absent (its default applies), a number, or NaN. */
  datatype NumParam = Absent | Number(n: int) | NaN

  const DefaultLimit: int := 10
  const DefaultPage: int := 1

  // ---------------------------------------------------------------- filter

  /** `toLowerCase` on one character, over the ASCII letters. */
  function Lower(c: char): char {
    if 'A' <= c <= 'Z' then (c as int + 32) as char else c
  }

  function LowerStr(s: string): string {
    seq(|s|, i requires 0 <= i < |s| => Lower(s[i]))
  }

  /** `q` occurs in `s` starting at `i`. */
  predicate OccursAt(s: string, q: string, i: int) {
    0 <= i <= |s| - |q| && s[i..i + |q|] == q
  }

  lemma OccursShift(s: string, q: string)
    requires |s| > 0
    ensures forall j :: 0 <= j ==> (OccursAt(s[1..], q, j) <==> OccursAt(s, q, j + 1))
  {
    forall j | 0 <= j ensures OccursAt(s[1..], q, j) <==> OccursAt(s, q, j + 1) {
      if 0 <= j <= |s| - 1 - |q| {
        assert s[1..][j..j + |q|] == s[j + 1..j + 1 + |q|];
      }
    }
  }

  /** `String.prototype.includes`: `q` occurs somewhere in `s`. */
  function Includes(s: string, q: string): (b: bool)
    ensures b <==> exists i :: OccursAt(s, q, i)
    decreases |s|
  {
    if |q| > |s| then false
    else if s[..|q|] == q then
      assert OccursAt(s, q, 0);
      true
    else
      OccursShift(s, q);
      assert !OccursAt(s, q, 0);
      assert forall i :: OccursAt(s, q, i) ==> OccursAt(s[1..], q, i - 1);
      Includes(s[1..], q)
  }

  /** The filter's test: the lowercased query occurs in the lowercased title, description or
      category, or the query is "true"/"false" and the status is that boolean. */
  predicate Matches(p: Listed, query: string) {
    var q := LowerStr(query);
    || Includes(LowerStr(p.title), q)
    || Includes(LowerStr(p.description), q)
    || Includes(LowerStr(p.category), q)
    || (q == "true" && p.status == BoolStatus(true))
    || (q == "false" && p.status == BoolStatus(false))
  }

  /** `filter` with `Matches`, keeping the catalog order. */
  function Filtered(ps: seq<Listed>, query: string): (r: seq<Listed>)
    ensures |r| <= |ps|
    ensures forall x :: x in r <==> x in ps && Matches(x, query)
  {
    if ps == [] then []
    else (if Matches(ps[0], query) then [ps[0]] else []) + Filtered(ps[1..], query)
  }

  /** The filter keeps the catalog order: it distributes over concatenation. */
  lemma {:induction false} FilteredAppend(a: seq<Listed>, b: seq<Listed>, query: string)
    ensures Filtered(a + b, query) == Filtered(a, query) + Filtered(b, query)
  {
    if a == [] {
      assert a + b == b;
    } else {
      assert (a + b)[0] == a[0] && (a + b)[1..] == a[1..] + b;
      FilteredAppend(a[1..], b, query);
    }
  }

  /** The default empty query keeps every product, in order. */
  lemma {:induction false} EmptyQueryKeepsAll(ps: seq<Listed>)
    ensures Filtered(ps, "") == ps
  {
    if ps != [] {
      assert OccursAt(LowerStr(ps[0].title), LowerStr(""), 0);
      EmptyQueryKeepsAll(ps[1..]);
      assert ps == [ps[0]] + ps[1..];
    }
  }

  // ---------------------------------------------------------------- sort

  /** `a` may precede `b`: by non-decreasing price for "asc", non-increasing for "desc". */
  predicate Before(a: Listed, b: Listed, asc: bool) {
    if asc then a.price <= b.price else a.price >= b.price
  }

  predicate SortedBy(s: seq<Listed>, asc: bool) {
    forall i, j :: 0 <= i < j < |s| ==> Before(s[i], s[j], asc)
  }

  /** Putting `x` in front of a sorted list that it may precede keeps the list sorted. */
  lemma PrependSorted(x: Listed, s: seq<Listed>, asc: bool)
    requires SortedBy(s, asc)
    requires forall j :: 0 <= j < |s| ==> Before(x, s[j], asc)
    ensures SortedBy([x] + s, asc)
  {
    forall i, j | 0 <= i < j < |[x] + s| ensures Before(([x] + s)[i], ([x] + s)[j], asc) {
      assert ([x] + s)[j] == s[j - 1];
      if i > 0 {
        assert ([x] + s)[i] == s[i - 1];
      }
    }
  }

  /** When `x` goes after the head of a sorted list, the head may precede everything the
      insertion into the tail produced. */
  lemma HeadPrecedesRest(s: seq<Listed>, x: Listed, rest: seq<Listed>, asc: bool)
    requires |s| > 0 && SortedBy(s, asc) && !Before(x, s[0], asc)
    requires multiset(rest) == multiset(s[1..]) + multiset{x}
    ensures forall j :: 0 <= j < |rest| ==> Before(s[0], rest[j], asc)
  {
    forall j | 0 <= j < |rest| ensures Before(s[0], rest[j], asc) {
      if rest[j] != x {
        assert rest[j] in multiset(rest);
        assert rest[j] in s[1..];
        var m :| 0 <= m < |s[1..]| && s[1..][m] == rest[j];
        assert s[m + 1] == rest[j];
      }
    }
  }

  /** Inserts `x` before the first element it may precede. */
  function Insert(x: Listed, s: seq<Listed>, asc: bool): (r: seq<Listed>)
    requires SortedBy(s, asc)
    ensures SortedBy(r, asc)
    ensures multiset(r) == multiset(s) + multiset{x}
    decreases |s|
  {
    if s == [] then [x]
    else if Before(x, s[0], asc) then
      PrependSorted(x, s, asc);
      [x] + s
    else
      assert s == [s[0]] + s[1..];
      var rest := Insert(x, s[1..], asc);
      HeadPrecedesRest(s, x, rest, asc);
      PrependSorted(s[0], rest, asc);
      [s[0]] + rest
  }

  /** The engine's `sort` with the price comparator, as an insertion sort. */
  function SortByPrice(s: seq<Listed>, asc: bool): (r: seq<Listed>)
    ensures SortedBy(r, asc)
    ensures multiset(r) == multiset(s)
    decreases |s|
  {
    if s == [] then []
    else
      assert s == [s[0]] + s[1..];
      Insert(s[0], SortByPrice(s[1..], asc), asc)
  }

  /** The products priced `v`, in their order. */
  function WithPrice(s: seq<Listed>, v: int): seq<Listed>
    decreases |s|
  {
    if s == [] then []
    else (if s[0].price == v then [s[0]] else []) + WithPrice(s[1..], v)
  }

  lemma WithPriceCons(y: Listed, t: seq<Listed>, v: int)
    ensures WithPrice([y] + t, v) == (if y.price == v then [y] else []) + WithPrice(t, v)
  {
    assert ([y] + t)[0] == y && ([y] + t)[1..] == t;
  }

  /** `x` lands after every product of its price already in the list. */
  lemma {:induction false} InsertWithPrice(x: Listed, s: seq<Listed>, asc: bool, v: int)
    requires SortedBy(s, asc)
    ensures WithPrice(Insert(x, s, asc), v) == (if x.price == v then [x] else []) + WithPrice(s, v)
    decreases |s|
  {
    if s == [] {
      WithPriceCons(x, [], v);
    } else if Before(x, s[0], asc) {
      WithPriceCons(x, s, v);
    } else {
      var t := s[1..];
      assert s == [s[0]] + t;
      var rest := Insert(x, t, asc);
      assert Insert(x, s, asc) == [s[0]] + rest;
      WithPriceCons(s[0], rest, v);
      InsertWithPrice(x, t, asc, v);
      WithPriceCons(s[0], t, v);
      // x goes after s[0] only when their prices differ, so at most one of them is priced v.
      assert x.price != s[0].price;
    }
  }

  /** Stability: products of equal price keep their relative order. */
  lemma {:induction false} SortKeepsEqualPricesInOrder(s: seq<Listed>, asc: bool, v: int)
    ensures WithPrice(SortByPrice(s, asc), v) == WithPrice(s, v)
    decreases |s|
  {
    if s != [] {
      SortKeepsEqualPricesInOrder(s[1..], asc, v);
      InsertWithPrice(s[0], SortByPrice(s[1..], asc), asc, v);
    }
  }

  /** The `sort` parameter: "asc" and "desc" reorder by price, anything else keeps the order.
      The engine's sort is stable, so products of one price keep their filter order. */
  function Arrange(s: seq<Listed>, sort: string): (r: seq<Listed>)
    ensures multiset(r) == multiset(s)
    ensures sort == "asc" ==> SortedBy(r, true)
    ensures sort == "desc" ==> SortedBy(r, false)
    ensures sort != "asc" && sort != "desc" ==> r == s
    ensures forall v :: WithPrice(r, v) == WithPrice(s, v)
  {
    if sort == "asc" || sort == "desc" then
      var asc := sort == "asc";
      forall v ensures WithPrice(SortByPrice(s, asc), v) == WithPrice(s, v) {
        SortKeepsEqualPricesInOrder(s, asc, v);
      }
      SortByPrice(s, asc)
    else s
  }

  // ---------------------------------------------------------------- pagination

  /** `Math.ceil(n / d)`. */
  function CeilDiv(n: nat, d: int): (r: nat)
    requires d > 0
    ensures r * d >= n && (r - 1) * d < n
    decreases n
  {
    if n == 0 then 0
    else if n <= d then 1
    else
      var r' := CeilDiv(n - d, d);
      assert (r' + 1) * d == r' * d + d;
      r' + 1
  }

  /** `slice(start, end)` for 0 <= start <= end: clamped to the length. */
  function Slice(s: seq<Listed>, start: nat, end: nat): (r: seq<Listed>)
    requires start <= end
    ensures |r| <= end - start
    ensures start >= |s| ==> r == []
    ensures start < |s| ==> start + |r| <= |s| && r == s[start..start + |r|]
    ensures end <= |s| ==> |r| == end - start
    ensures r == s[(if start < |s| then start else |s|)..(if end < |s| then end else |s|)]
  {
    if start >= |s| then []
    else if end <= |s| then s[start..end]
    else s[start..]
  }

  function DigitChar(d: nat): char
    requires d < 10
  {
    (48 + d) as char
  }

  /** Decimal text of a natural number, as a template literal prints it. */
  function NatStr(n: nat): (s: string)
    ensures |s| > 0
    ensures forall i :: 0 <= i < |s| ==> '0' <= s[i] <= '9'
  {
    if n < 10 then [DigitChar(n)] else NatStr(n / 10) + [DigitChar(n % 10)]
  }

  /** The number a string of decimal digits denotes. */
  function DigitsValue(s: string): int
    decreases |s|
  {
    if s == [] then 0 else DigitsValue(s[..|s| - 1]) * 10 + (s[|s| - 1] as int - '0' as int)
  }

  /** The page numbers printed in the links read back as the numbers themselves. */
  lemma {:induction false} NatStrValue(n: nat)
    ensures DigitsValue(NatStr(n)) == n
  {
    if n >= 10 {
      NatStrValue(n / 10);
      var s := NatStr(n / 10) + [DigitChar(n % 10)];
      assert s[..|s| - 1] == NatStr(n / 10);
    }
  }

  function PageLink(page: nat, limit: nat): string {
    "/products?page=" + NatStr(page) + "&limit=" + NatStr(limit)
  }

  /** The response fields. */
  datatype Page = Page(
    payload: seq<Listed>,
    totalPages: nat,
    prevPage: Option<int>,
    nextPage: Option<int>,
    page: int,
    hasPrevPage: bool,
    hasNextPage: bool,
    prevLink: Option<string>,
    nextLink: Option<string>)

  datatype Listing = BadRequest | Success(response: Page)

  /** A parameter's value: the default when absent, `None` when it is not a number. */
  function ParamValue(p: NumParam, default: int): Option<int> {
    match p
    case Absent => Some(default)
    case Number(n) => Some(n)
    case NaN => None
  }

  /** A page past the last one starts at or beyond the end of the list. */
  lemma PastLastPage(n: nat, l: int, p: int, totalPages: nat)
    requires l > 0 && totalPages * l >= n
    ensures p > totalPages ==> (p - 1) * l >= n
  {
    if p > totalPages {
      assert (p - 1) * l >= totalPages * l;
    }
  }

  /** A page before the last one is full. */
  lemma BeforeLastPage(n: nat, l: int, p: int, totalPages: nat)
    requires l > 0 && (totalPages - 1) * l < n
    ensures 0 < p < totalPages ==> (p - 1) * l + l <= n
  {
    if 0 < p < totalPages {
      assert (p - 1) * l + l == p * l;
      assert p * l <= (totalPages - 1) * l;
    }
  }

  /** `startIndex`: where page `p` of `l` products begins. */
  function PageStart(p: int, l: int): nat
    requires p > 0 && l > 0
  {
    (p - 1) * l
  }

  /** The pagination fields for a validated `limit` and `page`. */
  function Paginate(arranged: seq<Listed>, l: int, p: int): (resp: Page)
    requires l > 0 && p > 0
    ensures resp.page == p
    ensures resp.totalPages * l >= |arranged| && (resp.totalPages - 1) * l < |arranged|
    ensures resp.hasPrevPage <==> p > 1
    ensures resp.prevPage == if p > 1 then Some(p - 1) else None
    ensures resp.hasNextPage <==> p < resp.totalPages
    ensures resp.nextPage == if p < resp.totalPages then Some(p + 1) else None
    ensures resp.prevLink.Some? <==> resp.prevPage.Some?
    ensures resp.nextLink.Some? <==> resp.nextPage.Some?
  {
    var totalPages := CeilDiv(|arranged|, l);
    var start := PageStart(p, l);
    Page(
      Slice(arranged, start, start + l),
      totalPages,
      if p > 1 then Some(p - 1) else None,
      if p < totalPages then Some(p + 1) else None,
      p,
      p > 1,
      p < totalPages,
      if p > 1 then Some(PageLink(p - 1, l)) else None,
      if p < totalPages then Some(PageLink(p + 1, l)) else None)
  }

  /** The payload holds at most `limit` products: those at positions (page - 1) * limit onwards. */
  lemma PayloadIsWindow(arranged: seq<Listed>, l: int, p: int)
    requires l > 0 && p > 0
    ensures var resp := Paginate(arranged, l, p);
      && |resp.payload| <= l
      && |resp.payload| == (if PageStart(p, l) >= |arranged| then 0
                            else if PageStart(p, l) + l <= |arranged| then l
                            else |arranged| - PageStart(p, l))
      && forall i :: 0 <= i < |resp.payload| ==>
           PageStart(p, l) + i < |arranged| && resp.payload[i] == arranged[PageStart(p, l) + i]
  {
    var start := PageStart(p, l);
    assert Paginate(arranged, l, p).payload == Slice(arranged, start, start + l);
    SliceWindow(arranged, start, l);
  }

  lemma SliceWindow(s: seq<Listed>, start: nat, l: nat)
    ensures var r := Slice(s, start, start + l);
      forall i :: 0 <= i < |r| ==> start + i < |s| && r[i] == s[start + i]
  {
  }

  /** A page past the last one is empty; a page before the last one is full. */
  lemma PayloadSize(arranged: seq<Listed>, l: int, p: int)
    requires l > 0 && p > 0
    ensures var resp := Paginate(arranged, l, p);
      && (p > resp.totalPages ==> resp.payload == [])
      && (p < resp.totalPages ==> |resp.payload| == l)
  {
    var resp := Paginate(arranged, l, p);
    var start := PageStart(p, l);
    var n := |arranged|;
    var t := resp.totalPages;
    assert resp.payload == Slice(arranged, start, start + l);
    assert t * l >= n && (t - 1) * l < n;
    PastLastPage(n, l, p, t);
    BeforeLastPage(n, l, p, t);
  }

  /** The listing: parameter checks, then filter, sort and paginate. */
  function List(products: seq<Listed>, limit: NumParam, page: NumParam, query: string, sort: string): (r: Listing)
    ensures r.BadRequest? <==>
      || ParamValue(limit, DefaultLimit).None? || ParamValue(page, DefaultPage).None?
      || ParamValue(limit, DefaultLimit).value <= 0 || ParamValue(page, DefaultPage).value <= 0
    ensures r.Success? ==>
      r.response == Paginate(Arrange(Filtered(products, query), sort),
                             ParamValue(limit, DefaultLimit).value, ParamValue(page, DefaultPage).value)
  {
    var lp := ParamValue(limit, DefaultLimit);
    var pp := ParamValue(page, DefaultPage);
    if lp.None? || pp.None? || lp.value <= 0 || pp.value <= 0 then BadRequest
    else Success(Paginate(Arrange(Filtered(products, query), sort), lp.value, pp.value))
  }
}
