/**
 * The product detail page (components/ProductDetailPage.tsx): the used part
 * offered for one of the product's components, the purchase options sorted
 * by price, and the list of similar products that grows as the user scrolls.
 */
module ProductDetailPage {
  import opened Types
  import opened Seqs
  import opened UsedPartsData

  // ---------------------------------------------------------------- matching a used part

  /** `toLowerCase` on the ASCII letters; other characters are kept. */
  function Lower(s: string): (r: string)
    ensures |r| == |s|
    ensures forall i :: 0 <= i < |s| ==> !('A' <= r[i] <= 'Z')
    ensures forall i :: 0 <= i < |s| ==> (r[i] == s[i] || ('A' <= s[i] <= 'Z' && r[i] as int == s[i] as int + 32))
  {
    seq(|s|, i requires 0 <= i < |s| => if 'A' <= s[i] <= 'Z' then (s[i] as int + 32) as char else s[i])
  }

  /** The alternatives of `/amd|nvidia|intel|geforce|rtx|gtx/g`, in order. */
  const BRANDS: seq<string> := ["amd", "nvidia", "intel", "geforce", "rtx", "gtx"]

  /**
   * An alternation tried at the start of `s`: the length of the first
   * alternative from position `k` on that is a prefix of `s`, if any.
   */
  function FirstPrefix(s: string, alts: seq<string>, k: nat): (r: Option<nat>)
    requires k <= |alts|
    requires forall j :: 0 <= j < |alts| ==> alts[j] != []
    ensures r.Some? ==> 0 < r.value <= |s|
    decreases |alts| - k
  {
    if k == |alts| then None
    else if alts[k] <= s then Some(|alts[k]|)
    else FirstPrefix(s, alts, k + 1)
  }

  lemma {:induction false} FirstPrefixSpec(s: string, alts: seq<string>, k: nat)
    requires k <= |alts|
    requires forall j :: 0 <= j < |alts| ==> alts[j] != []
    ensures FirstPrefix(s, alts, k).None? <==> forall j :: k <= j < |alts| ==> !(alts[j] <= s)
    ensures FirstPrefix(s, alts, k).Some? ==>
      exists m :: k <= m < |alts| && alts[m] <= s && |alts[m]| == FirstPrefix(s, alts, k).value
                  && forall j :: k <= j < m ==> !(alts[j] <= s)
    decreases |alts| - k
  {
    if k < |alts| && !(alts[k] <= s) {
      FirstPrefixSpec(s, alts, k + 1);
    }
  }

  /** The length of the brand the pattern matches at the start of `s`, if any. */
  function BrandAt(s: string): (r: Option<nat>)
    ensures r.Some? ==> 0 < r.value <= |s|
  {
    FirstPrefix(s, BRANDS, 0)
  }

  /**
   * A brand is found at the start of `s` exactly when one of the alternatives
   * is a prefix of `s`, and then it is the first such alternative in the
   * order the pattern lists them.
   */
  lemma BrandAtSpec(s: string)
    ensures BrandAt(s).None? <==> forall k :: 0 <= k < |BRANDS| ==> !(BRANDS[k] <= s)
    ensures BrandAt(s).Some? ==> exists k :: 0 <= k < |BRANDS| && BRANDS[k] <= s && |BRANDS[k]| == BrandAt(s).value
                                             && forall j :: 0 <= j < k ==> !(BRANDS[j] <= s)
  {
    FirstPrefixSpec(s, BRANDS, 0);
  }

  /** `at(t)` is the length of a match at the start of `t`, when there is one. */
  ghost predicate IsMatcher(at: string -> Option<nat>)
  {
    forall t :: at(t).Some? ==> 0 < at(t).value <= |t|
  }

  /**
   * A global `replace(pattern, '')`: scanning left to right, a match starting
   * at the scan position is dropped and the scan resumes after it; any other
   * character is kept.
   */
  function RemoveMatches(s: string, at: string -> Option<nat>): (r: string)
    requires IsMatcher(at)
    ensures |r| <= |s|
    decreases |s|
  {
    if s == [] then []
    else
      var b := at(s);
      if b.Some? then RemoveMatches(s[b.value..], at) else [s[0]] + RemoveMatches(s[1..], at)
  }

  /** `replace(/amd|nvidia|intel|geforce|rtx|gtx/g, '')`. */
  function RemoveBrands(s: string): (r: string)
    ensures |r| <= |s|
  {
    RemoveMatches(s, BrandAt)
  }

  /** No match starts anywhere in `s`. */
  predicate MatchFree(s: string, at: string -> Option<nat>)
  {
    forall i :: 0 <= i < |s| ==> at(s[i..]).None?
  }

  /** No brand starts anywhere in `s`. */
  predicate BrandFree(s: string)
  {
    MatchFree(s, BrandAt)
  }

  /** Removing matches keeps the other characters in order, and changes nothing when there is no match. */
  lemma {:induction false} RemoveMatchesSpec(s: string, at: string -> Option<nat>)
    requires IsMatcher(at)
    ensures IsSubsequence(RemoveMatches(s, at), s)
    ensures MatchFree(s, at) ==> RemoveMatches(s, at) == s
    decreases |s|
  {
    if s != [] {
      var b := at(s);
      if b.Some? {
        RemoveMatchesSpec(s[b.value..], at);
        SkipKeepsSubsequence(RemoveMatches(s[b.value..], at), s, b.value);
        assert at(s[0..]).Some? by { assert s[0..] == s; }
      } else {
        var rest := RemoveMatches(s[1..], at);
        RemoveMatchesSpec(s[1..], at);
        assert ([s[0]] + rest)[1..] == rest;
        if MatchFree(s, at) {
          forall i | 0 <= i < |s[1..]|
            ensures at(s[1..][i..]).None?
          {
            assert s[1..][i..] == s[i + 1..];
          }
        }
      }
    }
  }

  /** A character where no match starts is kept, and the scan moves on by one. */
  lemma RemoveMatchesPlainHead(s: string, at: string -> Option<nat>)
    requires IsMatcher(at)
    requires s != [] && at(s).None?
    ensures RemoveMatches(s, at) == [s[0]] + RemoveMatches(s[1..], at)
  {
  }

  /**
   * Up to the first match the text is kept whole: when no match starts
   * before position `i`, the result is `s[..i]` followed by the result for
   * the rest.
   */
  lemma {:induction false} RemoveMatchesKeepsPlainPrefix(s: string, at: string -> Option<nat>, i: nat)
    requires IsMatcher(at)
    requires i <= |s|
    requires forall k :: 0 <= k < i ==> at(s[k..]).None?
    ensures RemoveMatches(s, at) == s[..i] + RemoveMatches(s[i..], at)
  {
    if i > 0 {
      RemoveMatchesKeepsPlainPrefix(s, at, i - 1);
      var t := s[i - 1..];
      RemoveMatchesPlainHead(t, at);
      assert t[1..] == s[i..];
      var rest := RemoveMatches(s[i..], at);
      calc {
        RemoveMatches(s, at);
        s[..i - 1] + RemoveMatches(t, at);
        s[..i - 1] + ([t[0]] + rest);
        { AppendAssoc(s[..i - 1], [t[0]], rest); }
        (s[..i - 1] + [t[0]]) + rest;
        { assert s[..i - 1] + [t[0]] == s[..i]; }
        s[..i] + rest;
      }
    }
  }

  /** A match at the scan position is dropped, and the scan resumes after it. */
  lemma RemoveMatchesMatchHead(s: string, at: string -> Option<nat>)
    requires IsMatcher(at)
    requires s != [] && at(s).Some?
    ensures RemoveMatches(s, at) == RemoveMatches(s[at(s).value..], at)
  {
  }

  /**
   * The first match is dropped whole: when a match starts at `i` and none
   * starts before it, the result is `s[..i]` followed by the result for the
   * text after the match.
   */
  lemma RemoveMatchesDropsFirst(s: string, at: string -> Option<nat>, i: nat)
    requires IsMatcher(at)
    requires i < |s| && at(s[i..]).Some?
    requires forall k :: 0 <= k < i ==> at(s[k..]).None?
    ensures RemoveMatches(s, at) == s[..i] + RemoveMatches(s[i + at(s[i..]).value..], at)
  {
    var t := s[i..];
    var n := at(t).value;
    RemoveMatchesMatchHead(t, at);
    assert t[n..] == s[i + n..];
    var tail := RemoveMatches(s[i + n..], at);
    assert RemoveMatches(t, at) == tail;
    RemoveMatchesKeepsPlainPrefix(s, at, i);
  }

  /**
   * Removing brands keeps every other character in order, leaves a string
   * without brands unchanged, keeps the text before the first brand whole,
   * and drops that brand whole.
   */
  lemma RemoveBrandsSpec(s: string, i: nat)
    requires i <= |s|
    requires forall k :: 0 <= k < i ==> BrandAt(s[k..]).None?
    ensures IsSubsequence(RemoveBrands(s), s)
    ensures BrandFree(s) ==> RemoveBrands(s) == s
    ensures RemoveBrands(s) == s[..i] + RemoveBrands(s[i..])
    ensures i < |s| && BrandAt(s[i..]).Some? ==>
      RemoveBrands(s) == s[..i] + RemoveBrands(s[i + BrandAt(s[i..]).value..])
  {
    RemoveMatchesSpec(s, BrandAt);
    RemoveMatchesKeepsPlainPrefix(s, BrandAt, i);
    if i < |s| && BrandAt(s[i..]).Some? {
      RemoveMatchesDropsFirst(s, BrandAt, i);
    }
  }

  /** A subsequence of a suffix is a subsequence of the whole. */
  lemma {:induction false} SkipKeepsSubsequence<T>(a: seq<T>, b: seq<T>, n: nat)
    requires n <= |b| && IsSubsequence(a, b[n..])
    ensures IsSubsequence(a, b)
    decreases n
  {
    if n > 0 {
      assert b[1..][n - 1..] == b[n..];
      SkipKeepsSubsequence(a, b[1..], n - 1);
      SubsequenceOfTail(a, b);
    }
  }

  /** The characters `trim` removes: JavaScript's white space and line terminators. */
  predicate IsSpace(c: char)
  {
    || c == '\t' || c == '\n' || c == '\U{000B}' || c == '\U{000C}' || c == '\r' || c == ' '
    || c == '\U{00A0}' || c == '\U{1680}' || ('\U{2000}' <= c <= '\U{200A}')
    || c == '\U{2028}' || c == '\U{2029}' || c == '\U{202F}' || c == '\U{205F}'
    || c == '\U{3000}' || c == '\U{FEFF}'
  }

  /** The number of spaces `s` starts with. */
  function LeadingSpaces(s: string): (n: nat)
    ensures n <= |s|
    ensures forall k :: 0 <= k < n ==> IsSpace(s[k])
    ensures n == |s| || !IsSpace(s[n])
  {
    if s != [] && IsSpace(s[0]) then 1 + LeadingSpaces(s[1..]) else 0
  }

  /** The number of spaces `s` ends with. */
  function TrailingSpaces(s: string): (n: nat)
    ensures n <= |s|
    ensures forall k :: |s| - n <= k < |s| ==> IsSpace(s[k])
    ensures n == |s| || !IsSpace(s[|s| - 1 - n])
  {
    if s != [] && IsSpace(s[|s| - 1]) then 1 + TrailingSpaces(s[..|s| - 1]) else 0
  }

  /** `trim`: `s` without its leading and trailing spaces. */
  function Trim(s: string): string
  {
    var start := LeadingSpaces(s);
    var rest := s[start..];
    rest[..|rest| - TrailingSpaces(rest)]
  }

  /** The result of `trim` sits in `s` right after the leading spaces, with only spaces after it. */
  lemma TrimSlice(s: string)
    ensures TrimmedAt(s, Trim(s), LeadingSpaces(s))
  {
    TrimSliceText(s);
    TrimSliceTail(s);
  }

  /** The text of the result is the slice of `s` that starts after the leading spaces. */
  lemma TrimSliceText(s: string)
    ensures LeadingSpaces(s) + |Trim(s)| <= |s|
    ensures s[LeadingSpaces(s)..LeadingSpaces(s) + |Trim(s)|] == Trim(s)
  {
    var start := LeadingSpaces(s);
    var rest := s[start..];
    var r := Trim(s);
    assert s[start..start + |r|] == rest[..|r|];
  }

  /** Everything in `s` after that slice is white space. */
  lemma TrimSliceTail(s: string)
    ensures forall k :: LeadingSpaces(s) + |Trim(s)| <= k < |s| ==> IsSpace(s[k])
  {
    var start := LeadingSpaces(s);
    var rest := s[start..];
    var t := TrailingSpaces(rest);
    assert |Trim(s)| == |rest| - t;
    forall k | start + |rest| - t <= k < |s|
      ensures IsSpace(s[k])
    {
      assert s[k] == rest[k - start];
    }
  }

  /**
   * Trimming removes white space at both ends and nothing else: the result is
   * a slice of `s` with only spaces around it, neither starts nor ends with
   * a space, and is empty exactly when `s` is all spaces.
   */
  lemma TrimSpec(s: string)
    ensures var r := Trim(s); r == [] || (!IsSpace(r[0]) && !IsSpace(r[|r| - 1]))
    ensures Trim(s) == [] <==> forall k :: 0 <= k < |s| ==> IsSpace(s[k])
    ensures exists i: nat :: TrimmedAt(s, Trim(s), i)
    ensures Contains(s, Trim(s))
  {
    var start := LeadingSpaces(s);
    var rest := s[start..];
    var t := TrailingSpaces(rest);
    var r := Trim(s);
    assert r == rest[..|rest| - t];
    TrimSlice(s);
    assert OccursAt(s, r, start);
    if r != [] {
      assert r[0] == rest[0];
      assert r[|r| - 1] == rest[|rest| - 1 - t];
    }
  }

  /** `r` is `s` with spaces only before position `i` and after `r` removed. */
  predicate TrimmedAt(s: string, r: string, i: nat)
  {
    && i + |r| <= |s| && s[i..i + |r|] == r
    && (forall k :: 0 <= k < i ==> IsSpace(s[k]))
    && (forall k :: i + |r| <= k < |s| ==> IsSpace(s[k]))
  }

  /** The part of a spec or a part name that is compared: lower-cased, brands removed, trimmed. */
  function Core(s: string): string
  {
    Trim(RemoveBrands(Lower(s)))
  }

  /** `coreSpec.includes(...)` for one part: the part's core occurs in the spec's core. */
  predicate Fits(coreSpec: string, part: UsedPart)
  {
    Contains(coreSpec, Core(part.component))
  }

  /** The test "fits `coreSpec`". */
  function FitsTo(coreSpec: string): UsedPart -> bool
  {
    (u: UsedPart) => Fits(coreSpec, u)
  }

  /** The position of the first element satisfying `p`, or the length when none does. */
  function FirstWhere<T>(xs: seq<T>, p: T -> bool): (n: nat)
    ensures n <= |xs|
    ensures forall k :: 0 <= k < n ==> !p(xs[k])
    ensures n < |xs| ==> p(xs[n])
  {
    if xs == [] || p(xs[0]) then 0
    else
      var n := FirstWhere(xs[1..], p);
      assert forall k :: 1 <= k < |xs| ==> xs[k] == xs[1..][k - 1];
      n + 1
  }

  /** `usedPartsData.find(...)`: the first part, in table order, that fits `coreSpec`. */
  function FindPart(coreSpec: string, parts: seq<UsedPart>): (r: Option<UsedPart>)
    ensures r.Some? ==> exists j :: 0 <= j < |parts| && parts[j] == r.value && Fits(coreSpec, parts[j])
                                    && forall k :: 0 <= k < j ==> !Fits(coreSpec, parts[k])
    ensures r.None? ==> forall i :: 0 <= i < |parts| ==> !Fits(coreSpec, parts[i])
  {
    var n := FirstWhere(parts, FitsTo(coreSpec));
    if n < |parts| then Some(parts[n]) else None
  }

  /** The part offered for one component: the first whose core occurs in the component's core. */
  function PartFor(component: ComponentSpec, parts: seq<UsedPart>): Option<UsedPart>
  {
    FindPart(Core(component.spec), parts)
  }

  /** The part offered for each component, in the order the components are listed. */
  function Offers(components: seq<ComponentSpec>, parts: seq<UsedPart>): (r: seq<Option<UsedPart>>)
    ensures |r| == |components|
    ensures forall k :: 0 <= k < |components| ==> r[k] == PartFor(components[k], parts)
  {
    seq(|components|, k requires 0 <= k < |components| => PartFor(components[k], parts))
  }

  /** The first present value of a list of options. */
  function FirstSome<T>(xs: seq<Option<T>>): Option<T>
  {
    if xs == [] then None else if xs[0].Some? then xs[0] else FirstSome(xs[1..])
  }

  /**
   * The position of the first present value: every option before it is
   * absent, and it is the first present value; past the end when all are absent.
   */
  function FirstSomeAt<T>(xs: seq<Option<T>>): (n: nat)
    ensures n <= |xs|
    ensures forall k :: 0 <= k < n ==> xs[k].None?
    ensures n < |xs| ==> xs[n].Some?
    ensures FirstSome(xs) == if n < |xs| then xs[n] else None
  {
    if xs == [] || xs[0].Some? then 0
    else
      var n := FirstSomeAt(xs[1..]);
      assert forall k :: 1 <= k < |xs| ==> xs[k] == xs[1..][k - 1];
      n + 1
  }

  /** The used part `findMatch` offers: the first component, in order, for which some part fits. */
  function MatchOf(components: seq<ComponentSpec>, parts: seq<UsedPart>): Option<UsedPart>
  {
    FirstSome(Offers(components, parts))
  }

  /** There is no match exactly when no part fits any component. */
  lemma NoMatchSpec(components: seq<ComponentSpec>, parts: seq<UsedPart>)
    ensures MatchOf(components, parts).None? <==>
      forall i, j :: 0 <= i < |components| && 0 <= j < |parts| ==> !Fits(Core(components[i].spec), parts[j])
  {
    var offers := Offers(components, parts);
    var n := FirstSomeAt(offers);
    if n < |offers| {
      var m := PartFor(components[n], parts);
      var j :| 0 <= j < |parts| && parts[j] == m.value;
      assert Fits(Core(components[n].spec), parts[j]);
    } else {
      forall i, j | 0 <= i < |components| && 0 <= j < |parts|
        ensures !Fits(Core(components[i].spec), parts[j])
      {
        assert PartFor(components[i], parts).None?;
      }
    }
  }

  /**
   * The match, when there is one, is a part that fits the core of a component
   * none of whose predecessors has a fitting part.
   */
  lemma MatchIsFirstFit(components: seq<ComponentSpec>, parts: seq<UsedPart>)
    requires MatchOf(components, parts).Some?
    ensures exists n, j :: 0 <= n < |components| && 0 <= j < |parts| && MatchOf(components, parts) == Some(parts[j])
                           && Fits(Core(components[n].spec), parts[j])
                           && (forall k :: 0 <= k < j ==> !Fits(Core(components[n].spec), parts[k]))
                           && forall k :: 0 <= k < n ==> PartFor(components[k], parts).None?
  {
    var offers := Offers(components, parts);
    var n := FirstSomeAt(offers);
    var spec := Core(components[n].spec);
    var m := PartFor(components[n], parts);
    assert MatchOf(components, parts) == offers[n] == m;
    assert forall k :: 0 <= k < n ==> PartFor(components[k], parts).None? by {
      assert forall k :: 0 <= k < n ==> offers[k].None?;
    }
    var j :| 0 <= j < |parts| && parts[j] == m.value && Fits(spec, parts[j])
             && forall k :: 0 <= k < j ==> !Fits(spec, parts[k]);
  }

  /** `findMatch`: the loop over the components, returning at the first match. */
  method FindMatch(components: seq<ComponentSpec>) returns (r: Option<UsedPart>)
    ensures r == MatchOf(components, USED_PARTS)
  {
    ghost var offers := Offers(components, USED_PARTS);
    ghost var n := FirstSomeAt(offers);
    var i := 0;
    while i < |components|
      invariant 0 <= i <= |components|
      invariant forall k :: 0 <= k < i ==> offers[k].None?
    {
      var coreSpec := Core(components[i].spec);
      var found := FindPart(coreSpec, USED_PARTS);
      assert found == offers[i];
      if found.Some? {
        assert n == i;
        return found;
      }
      i := i + 1;
    }
    assert n == |offers|;
    return None;
  }

  // ---------------------------------------------------------------- purchase options

  /** `(a, b) => a.price - b.price`: the options in ascending price order. */
  predicate SortedByPrice(s: seq<PurchaseOption>)
  {
    forall i, j :: 0 <= i < j < |s| ==> s[i].price <= s[j].price
  }

  /** The test "has price `q`". */
  function PriceIs(q: int): PurchaseOption -> bool
  {
    (o: PurchaseOption) => o.price == q
  }

  /** Places `x` before the first option that costs at least as much. */
  function InsertByPrice(x: PurchaseOption, s: seq<PurchaseOption>): (r: seq<PurchaseOption>)
    ensures multiset(r) == multiset(s) + multiset{x}
  {
    if s == [] || x.price <= s[0].price then [x] + s
    else
      var r := [s[0]] + InsertByPrice(x, s[1..]);
      assert s == [s[0]] + s[1..];
      r
  }

  /**
   * `Array.prototype.sort` with the price comparator, which is stable: each
   * option is inserted into the sorted rest ahead of those that cost the same.
   */
  function SortByPrice(s: seq<PurchaseOption>): (r: seq<PurchaseOption>)
    ensures multiset(r) == multiset(s)
  {
    if s == [] then []
    else
      assert s == [s[0]] + s[1..];
      InsertByPrice(s[0], SortByPrice(s[1..]))
  }

  /** `sortedPurchaseOptions`: a missing list sorts as an empty one. */
  function SortedPurchaseOptions(options: Option<seq<PurchaseOption>>): seq<PurchaseOption>
  {
    SortByPrice(if options.Some? then options.value else [])
  }

  /** Every option of the insertion costs at least `b` when `x` and every option of `s` do. */
  lemma {:induction false} InsertLowerBound(x: PurchaseOption, s: seq<PurchaseOption>, b: int)
    requires x.price >= b
    requires forall i :: 0 <= i < |s| ==> s[i].price >= b
    ensures forall i :: 0 <= i < |InsertByPrice(x, s)| ==> InsertByPrice(x, s)[i].price >= b
  {
    if s != [] && x.price > s[0].price {
      InsertLowerBound(x, s[1..], b);
    }
  }

  lemma {:induction false} InsertKeepsSorted(x: PurchaseOption, s: seq<PurchaseOption>)
    requires SortedByPrice(s)
    ensures SortedByPrice(InsertByPrice(x, s))
  {
    if s != [] && x.price > s[0].price {
      var rest := InsertByPrice(x, s[1..]);
      InsertKeepsSorted(x, s[1..]);
      InsertLowerBound(x, s[1..], s[0].price);
      assert InsertByPrice(x, s) == [s[0]] + rest;
    }
  }

  /** Inserting `x` adds it to the options of its price, ahead of them, and leaves other prices alone. */
  lemma {:induction false} InsertKeepsPriceOrder(x: PurchaseOption, s: seq<PurchaseOption>, q: int)
    ensures Filter(InsertByPrice(x, s), PriceIs(q)) == (if x.price == q then [x] else []) + Filter(s, PriceIs(q))
  {
    if s == [] || x.price <= s[0].price {
      assert ([x] + s)[1..] == s;
    } else {
      InsertKeepsPriceOrder(x, s[1..], q);
      var rest := InsertByPrice(x, s[1..]);
      assert ([s[0]] + rest)[1..] == rest;
    }
  }

  /**
   * The sorted options are in ascending price order, are a permutation of
   * the given ones, and keep options of equal price in their given order.
   */
  lemma {:induction false} SortByPriceSpec(s: seq<PurchaseOption>)
    ensures SortedByPrice(SortByPrice(s))
    ensures multiset(SortByPrice(s)) == multiset(s)
    ensures forall q :: Filter(SortByPrice(s), PriceIs(q)) == Filter(s, PriceIs(q))
  {
    if s != [] {
      SortByPriceSpec(s[1..]);
      InsertKeepsSorted(s[0], SortByPrice(s[1..]));
      forall q
        ensures Filter(SortByPrice(s), PriceIs(q)) == Filter(s, PriceIs(q))
      {
        InsertKeepsPriceOrder(s[0], SortByPrice(s[1..]), q);
      }
    }
  }

  /** The first sorted option is a cheapest one. */
  lemma CheapestFirst(options: Option<seq<PurchaseOption>>)
    requires options.Some? && options.value != []
    ensures var r := SortedPurchaseOptions(options);
      r != [] && r[0] in options.value && forall o :: o in options.value ==> r[0].price <= o.price
  {
    var r := SortedPurchaseOptions(options);
    SortByPriceSpec(options.value);
    assert |r| == |multiset(r)| == |multiset(options.value)|;
    assert r[0] in multiset(r);
    forall o | o in options.value
      ensures r[0].price <= o.price
    {
      assert o in multiset(r);
      var k :| 0 <= k < |r| && r[k] == o;
    }
  }

  // ---------------------------------------------------------------- similar products

  /** `excludeTitles`: the product's title, then the titles of the similar products shown. */
  function ExcludeList(title: string, similar: seq<Product>): seq<string>
  {
    [title] + Titles(similar)
  }

  /** The exclusion list names the product first, then every similar product shown, in order. */
  lemma ExcludeListSpec(title: string, similar: seq<Product>)
    ensures |ExcludeList(title, similar)| == |similar| + 1
    ensures ExcludeList(title, similar)[0] == title
    ensures forall i :: 0 <= i < |similar| ==> ExcludeList(title, similar)[i + 1] == similar[i].title
  {
  }

  /**
   * The page's state: the product shown, the similar products loaded so far,
   * whether the first batch is loading, whether more may be fetched, and the
   * used part offered. A fetch is split at its `await`: the methods that
   * start one return the titles to exclude, and `FinishFetch` takes the reply.
   */
  class DetailPage {
    var product: Product
    var similar: seq<Product>
    var isLoadingSimilar: bool
    var hasMoreSimilar: bool
    var availableUsedPart: Option<UsedPart>

    /** The initial state, before the effects run. */
    constructor(product: Product)
      ensures this.product == product && similar == [] && isLoadingSimilar && hasMoreSimilar
      ensures availableUsedPart == None
    {
      this.product := product;
      similar := [];
      isLoadingSimilar := true;
      hasMoreSimilar := true;
      availableUsedPart := None;
    }

    /** `fetchSimilar(true)` up to its `await`: the exclusions are taken before the list is cleared. */
    method BeginInitialFetch() returns (exclude: seq<string>)
      modifies this`similar, this`isLoadingSimilar, this`hasMoreSimilar
      ensures exclude == ExcludeList(product.title, old(similar))
      ensures similar == [] && isLoadingSimilar && hasMoreSimilar
    {
      hasMoreSimilar := true;
      exclude := ExcludeList(product.title, similar);
      isLoadingSimilar := true;
      similar := [];
    }

    /** The effects on mount: look for a used part, then start the first fetch. */
    method Mount() returns (exclude: seq<string>)
      modifies this`similar, this`isLoadingSimilar, this`hasMoreSimilar, this`availableUsedPart
      ensures availableUsedPart == MatchOf(product.components, USED_PARTS)
      ensures exclude == ExcludeList(product.title, old(similar))
      ensures similar == [] && isLoadingSimilar && hasMoreSimilar
    {
      availableUsedPart := FindMatch(product.components);
      exclude := BeginInitialFetch();
    }

    /**
     * A new product is passed in: the used part is looked up again, and when
     * the title differs the similar list restarts with a fresh first fetch,
     * whose exclusions still name the similar products shown before.
     */
    method ShowProduct(p: Product) returns (request: Option<seq<string>>)
      modifies this
      ensures product == p
      ensures availableUsedPart == MatchOf(p.components, USED_PARTS)
      ensures p.title != old(product.title) ==>
        request == Some(ExcludeList(p.title, old(similar))) && similar == [] && isLoadingSimilar && hasMoreSimilar
      ensures p.title == old(product.title) ==>
        request == None && similar == old(similar)
        && isLoadingSimilar == old(isLoadingSimilar) && hasMoreSimilar == old(hasMoreSimilar)
    {
      var titleChanged := p.title != product.title;
      product := p;
      availableUsedPart := FindMatch(p.components);
      if titleChanged {
        var exclude := BeginInitialFetch();
        request := Some(exclude);
      } else {
        request := None;
      }
    }

    /**
     * The loader scrolled into view: when the first batch is in and more may
     * come, a further fetch starts, excluding the product and all shown.
     */
    method LoaderIntersect() returns (request: Option<seq<string>>)
      ensures !isLoadingSimilar && hasMoreSimilar ==> request == Some(ExcludeList(product.title, similar))
      ensures isLoadingSimilar || !hasMoreSimilar ==> request == None
    {
      if isLoadingSimilar || !hasMoreSimilar {
        return None;
      }
      request := Some(ExcludeList(product.title, similar));
    }

    /**
     * `fetchSimilar` after its `await`: a non-empty batch is appended; an
     * empty or missing batch, or an error, stops further fetching. Only the
     * first fetch clears the loading flag.
     */
    method FinishFetch(isInitial: bool, reply: Reply)
      modifies this`similar, this`hasMoreSimilar, this`isLoadingSimilar
      ensures reply.Batch? && |reply.recommendations| > 0 ==>
        similar == old(similar) + reply.recommendations && hasMoreSimilar == old(hasMoreSimilar)
      ensures !(reply.Batch? && |reply.recommendations| > 0) ==> similar == old(similar) && !hasMoreSimilar
      ensures isLoadingSimilar == if isInitial then false else old(isLoadingSimilar)
      ensures hasMoreSimilar ==> old(hasMoreSimilar)
    {
      if reply.Batch? && |reply.recommendations| > 0 {
        similar := similar + reply.recommendations;
      } else {
        hasMoreSimilar := false;
      }
      if isInitial {
        isLoadingSimilar := false;
      }
    }
  }
}
