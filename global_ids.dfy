/**
 * Global identifiers of the commerce platform: the composite strings
 * `gid://shopify/<Type>/<digits>` the script builds for its queries and the
 * helper that extracts the trailing number again (`shopifyIdNumberOnly`).
 */
module GlobalIds {
  import opened Wrappers

  /** Prefix of a product's global identifier. */
  const ProductPrefix: string := "gid://shopify/Product/"

  /** Prefix of a metaobject's global identifier. */
  const MetaobjectPrefix: string := "gid://shopify/Metaobject/"

  /** The identifier sent with product queries and the update mutation. */
  function ProductGid(id: string): string
  {
    ProductPrefix + id
  }

  /** The identifier sent with the metaobject query. */
  function MetaobjectGid(id: string): string
  {
    MetaobjectPrefix + id
  }

  /** `\d` of a JavaScript regular expression: the ASCII digits only. */
  predicate IsDigit(c: char)
  {
    '0' <= c <= '9'
  }

  predicate AllDigits(s: string)
  {
    forall i :: 0 <= i < |s| ==> IsDigit(s[i])
  }

  predicate IsSuffix(t: string, s: string)
  {
    |t| <= |s| && t == s[|s| - |t|..]
  }

  /** True when `s` ends in a decimal digit, i.e. when `/(\d+)$/` matches. */
  predicate EndsInDigit(s: string)
  {
    |s| > 0 && IsDigit(s[|s| - 1])
  }

  /** Where the run of digits that ends just before index `k` of `s` begins. */
  function RunStart(s: string, k: nat): (j: nat)
    requires k <= |s|
    ensures j <= k
    ensures forall i :: j <= i < k ==> IsDigit(s[i])
    ensures j > 0 ==> !IsDigit(s[j - 1])
    decreases k
  {
    if k == 0 || !IsDigit(s[k - 1]) then k else RunStart(s, k - 1)
  }

  /**
   * The longest suffix of `s` made of digits only (possibly empty): the
   * text a leftmost, greedy match of `(\d+)$` captures.
   */
  function TrailingDigits(s: string): string
  {
    s[RunStart(s, |s|)..]
  }

  /** The captured text is all digits, a suffix of the input, and maximal. */
  lemma TrailingDigitsIsMaximalRun(s: string)
    ensures AllDigits(TrailingDigits(s)) && IsSuffix(TrailingDigits(s), s)
    ensures |TrailingDigits(s)| < |s| ==> !IsDigit(s[|s| - |TrailingDigits(s)| - 1])
  {
    var j := RunStart(s, |s|);
    assert forall i :: 0 <= i < |s| - j ==> s[j..][i] == s[j + i];
  }

  /** Why extracting the number failed: the match was null and `match[1]` threw. */
  datatype IdError = NoTrailingDigits(idString: string)

  /**
   * `shopifyIdNumberOnly`: the maximal run of decimal digits at the end of
   * `idString`, or an error when the input does not end in a digit.
   */
  function IdNumberOnly(idString: string): (r: Result<string, IdError>)
    ensures r.Success? <==> EndsInDigit(idString)
    ensures r.Failure? ==> r.error == NoTrailingDigits(idString)
  {
    if EndsInDigit(idString) then Success(TrailingDigits(idString))
    else Failure(NoTrailingDigits(idString))
  }

  /**
   * What `shopifyIdNumberOnly` returns: a non-empty run of digits that is a
   * suffix of the input and cannot be extended to the left.
   */
  lemma IdNumberOnlyIsMaximalRun(idString: string)
    requires EndsInDigit(idString)
    ensures var d := IdNumberOnly(idString).value;
      && d != "" && AllDigits(d) && IsSuffix(d, idString)
      && (|d| < |idString| ==> !IsDigit(idString[|idString| - |d| - 1]))
  {
    TrailingDigitsIsMaximalRun(idString);
    var d := IdNumberOnly(idString).value;
    assert d[|d| - 1] == idString[|idString| - 1] by {
      assert d == idString[|idString| - |d|..];
    }
  }

  /** A run of digits that starts after a non-digit (or at the start) starts at `b`. */
  lemma {:induction false} RunStartAt(s: string, b: nat, k: nat)
    requires b <= k <= |s|
    requires forall i :: b <= i < k ==> IsDigit(s[i])
    requires b == 0 || !IsDigit(s[b - 1])
    ensures RunStart(s, k) == b
    decreases k
  {
    if k > b {
      RunStartAt(s, b, k - 1);
    }
  }

  /** The three properties of TrailingDigits determine it: it is the maximal run. */
  lemma TrailingDigitsUnique(s: string, t: string)
    requires AllDigits(t) && IsSuffix(t, s)
    requires |t| < |s| ==> !IsDigit(s[|s| - |t| - 1])
    ensures t == TrailingDigits(s)
  {
    var b := |s| - |t|;
    forall i | b <= i < |s|
      ensures IsDigit(s[i])
    {
      assert s[i] == t[i - b];
    }
    RunStartAt(s, b, |s|);
  }

  /**
   * Construction and extraction are inverse: after any prefix that does not
   * end in a digit, a non-empty digit string comes back unchanged.
   */
  lemma ExtractAfterPrefix(prefix: string, d: string)
    requires prefix == "" || !IsDigit(prefix[|prefix| - 1])
    requires d != "" && AllDigits(d)
    ensures IdNumberOnly(prefix + d) == Success(d)
  {
    var s := prefix + d;
    var b := |prefix|;
    forall i | b <= i < |s|
      ensures IsDigit(s[i])
    {
      assert s[i] == d[i - b];
    }
    assert b > 0 ==> s[b - 1] == prefix[b - 1];
    RunStartAt(s, b, |s|);
    assert s[b..] == d;
  }

  /** Round trip for products: both prefixes end in '/', which is not a digit. */
  lemma ProductIdRoundTrip(d: string)
    requires d != "" && AllDigits(d)
    ensures IdNumberOnly(ProductGid(d)) == Success(d)
  {
    ExtractAfterPrefix(ProductPrefix, d);
  }

  /** Round trip for metaobjects (ingredient references). */
  lemma MetaobjectIdRoundTrip(d: string)
    requires d != "" && AllDigits(d)
    ensures IdNumberOnly(MetaobjectGid(d)) == Success(d)
  {
    ExtractAfterPrefix(MetaobjectPrefix, d);
  }

  /**
   * Extraction needs the digits: after a prefix that does not end in a digit,
   * an id that does not end in one (the empty id included) yields the error.
   */
  lemma NoDigitsAfterPrefixFails(prefix: string, id: string)
    requires prefix == "" || !IsDigit(prefix[|prefix| - 1])
    requires id == "" || !IsDigit(id[|id| - 1])
    ensures IdNumberOnly(prefix + id) == Failure(NoTrailingDigits(prefix + id))
  {
    if id == "" {
      assert prefix + id == prefix;
    } else {
      assert (prefix + id)[|prefix + id| - 1] == id[|id| - 1];
    }
  }

  /**
   * The decimal text of a non-negative integer, as a template literal writes
   * a numeric product id such as those of the product table. JavaScript
   * prints these digits exactly only for safe integers (below 2^53).
   */
  function Decimal(n: nat): (s: string)
    ensures s != "" && AllDigits(s)
    decreases n
  {
    var last := ['0' + (n % 10) as char];
    if n < 10 then last else Decimal(n / 10) + last
  }

  /** The value a digit string denotes: the partner of Decimal. */
  function DigitsValue(s: string): nat
    requires AllDigits(s)
    decreases |s|
  {
    if s == "" then 0 else 10 * DigitsValue(s[..|s| - 1]) + (s[|s| - 1] - '0') as nat
  }

  lemma {:induction false} DecimalValue(n: nat)
    ensures DigitsValue(Decimal(n)) == n
    decreases n
  {
    var s := Decimal(n);
    if n >= 10 {
      DecimalValue(n / 10);
      assert s[..|s| - 1] == Decimal(n / 10);
    }
  }

  /** A numeric product id survives `gid://shopify/Product/${id}` and extraction. */
  lemma NumericProductIdRoundTrip(n: nat)
    ensures IdNumberOnly(ProductGid(Decimal(n))).Success?
    ensures DigitsValue(IdNumberOnly(ProductGid(Decimal(n))).value) == n
  {
    ProductIdRoundTrip(Decimal(n));
    DecimalValue(n);
  }
}
