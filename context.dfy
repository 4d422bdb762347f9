/** Package `ctxutil`: `GetPageFromCtx` reads the paging parameters from a
    Gin request's query string or from a plain `context.Context`, then
    replaces every non-positive number and an empty order by the defaults. */
module CtxUtil {
  import opened Util
  import opened Request
  import Constant
  import DbUtil

  // ---------------------------------------------------------------------------
  // strconv.Atoi
  // ---------------------------------------------------------------------------

  predicate IsDigit(c: char) {
    '0' <= c <= '9'
  }

  predicate AllDigits(s: string) {
    forall i :: 0 <= i < |s| ==> IsDigit(s[i])
  }

  /** The value of a run of decimal digits, read left to right. */
  function DigitsValue(s: string): nat
    requires AllDigits(s)
  {
    if |s| == 0 then 0
    else DigitsValue(s[..|s| - 1]) * 10 + (s[|s| - 1] as int - '0' as int)
  }

  function Clamp64(x: int): Int64 {
    if x > MaxInt64 then MaxInt64 else if x < MinInt64 then MinInt64 else x
  }

  /** 2^64 - 1, the largest magnitude `strconv.ParseUint` holds. */
  const MaxUint64: int := TwoTo64 - 1

  /** `s` without its leading sign, if it has one. */
  function Unsigned(s: string): string {
    if |s| > 0 && (s[0] == '+' || s[0] == '-') then s[1..] else s
  }

  /** The length of the run of digits that starts `s`. */
  function LeadingDigitCount(s: string): (n: nat)
    ensures n <= |s|
    ensures AllDigits(s[..n])
    ensures n < |s| ==> !IsDigit(s[n])
  {
    if |s| == 0 || !IsDigit(s[0]) then 0
    else
      var m := LeadingDigitCount(s[1..]);
      assert s[..1 + m] == [s[0]] + s[1..][..m];
      1 + m
  }

  /** Any `n` with the digit-run property is the length of the run. */
  lemma LeadingDigitCountIs(s: string, n: nat)
    requires n <= |s| && AllDigits(s[..n]) && (n < |s| ==> !IsDigit(s[n]))
    ensures LeadingDigitCount(s) == n
  {
    var m := LeadingDigitCount(s);
    forall i | 0 <= i < n ensures IsDigit(s[i]) { assert s[..n][i] == s[i]; }
    forall i | 0 <= i < m ensures IsDigit(s[i]) { assert s[..m][i] == s[i]; }
  }

  function LeadingDigits(s: string): (d: string)
    ensures AllDigits(d)
  {
    s[..LeadingDigitCount(s)]
  }

  /** The value `strconv.Atoi` yields when its error is discarded. The
      digits after an optional sign are read left to right; as soon as the
      digits read so far exceed 2^64 - 1 the reading stops with the range
      error and that maximum, whatever follows, and the sign and the 64-bit
      range then clamp it. Otherwise no digit at all, or any character that
      is not a digit, gives 0, and a run of digits gives its value, clamped
      to the 64-bit range. */
  function Atoi(s: string): (r: Int64)
    ensures r != 0 ==> |Unsigned(s)| > 0 && IsDigit(Unsigned(s)[0])
    ensures r < 0 ==> |s| > 0 && s[0] == '-'
    ensures r > 0 ==> |s| > 0 ==> s[0] != '-'
  {
    var negative := |s| > 0 && s[0] == '-';
    var digits := Unsigned(s);
    var prefix := LeadingDigits(digits);
    if |digits| == 0 then 0
    else if DigitsValue(prefix) > MaxUint64 then
      if negative then Clamp64(-MaxUint64) else Clamp64(MaxUint64)
    else if |prefix| < |digits| then 0
    else if negative then Clamp64(-(DigitsValue(prefix) as int))
    else Clamp64(DigitsValue(prefix))
  }

  function DigitChar(d: nat): char
    requires d < 10
  {
    ('0' as int + d) as char
  }

  /** Decimal notation of a natural number, as `strconv.Itoa` writes it. */
  function Decimal(n: nat): (s: string)
    ensures |s| >= 1 && AllDigits(s)
  {
    if n < 10 then [DigitChar(n)] else Decimal(n / 10) + [DigitChar(n % 10)]
  }

  lemma {:induction false} DigitsValueDecimal(n: nat)
    ensures DigitsValue(Decimal(n)) == n
  {
    if n >= 10 {
      DigitsValueDecimal(n / 10);
      var s := Decimal(n);
      assert s[..|s| - 1] == Decimal(n / 10);
    }
  }

  /** Reading back the decimal notation of any 64-bit value, negative ones
      with a leading minus, gives that value. */
  lemma AtoiDecimal(n: nat)
    ensures n <= MaxInt64 ==> Atoi(Decimal(n)) == n
    ensures n <= -MinInt64 ==> Atoi("-" + Decimal(n)) == -(n as int)
  {
    DigitsValueDecimal(n);
    var d := Decimal(n);
    assert d[0] != '+' && d[0] != '-' by { assert IsDigit(d[0]); }
    assert ("-" + d)[1..] == d;
    LeadingDigitCountIs(d, |d|);
    assert d[..|d|] == d;
  }

  /** The empty string, a lone sign, and a string with a non-digit after
      the sign whose leading digits stay within 2^64 - 1, all read as 0. */
  lemma AtoiRejects(s: string)
    requires |Unsigned(s)| == 0 ||
      (!AllDigits(Unsigned(s)) && DigitsValue(LeadingDigits(Unsigned(s))) <= MaxUint64)
    ensures Atoi(s) == 0
  {
    var digits := Unsigned(s);
    if |digits| > 0 {
      var m := LeadingDigitCount(digits);
      if m == |digits| {
        assert digits[..m] == digits;
      }
    }
  }

  /** Leading digits past 2^64 - 1 saturate the value at the end of the
      64-bit range on the side of the sign, whatever characters follow. */
  lemma AtoiSaturates(s: string)
    requires DigitsValue(LeadingDigits(Unsigned(s))) > MaxUint64
    ensures |s| > 0
    ensures Atoi(s) == if s[0] == '-' then MinInt64 else MaxInt64
  {
  }

  /** A run of `k` nines is worth 10^k - 1. */
  lemma {:induction false} NinesValue(k: nat)
    ensures AllDigits(seq(k, _ => '9'))
    ensures DigitsValue(seq(k, _ => '9')) == Pow10(k) - 1
  {
    var s := seq(k, _ => '9');
    if k > 0 {
      NinesValue(k - 1);
      assert s[..k - 1] == seq(k - 1, _ => '9');
    }
  }

  function Pow10(k: nat): nat {
    if k == 0 then 1 else 10 * Pow10(k - 1)
  }

  /** Twenty or more nines followed by a non-digit read as the largest
      64-bit value, not as 0. */
  lemma {:induction false} AtoiOverflowBeforeNonDigit(k: nat, rest: string)
    requires k >= 20 && |rest| > 0 && !IsDigit(rest[0])
    ensures Atoi(seq(k, _ => '9') + rest) == MaxInt64
  {
    var nines := seq(k, _ => '9');
    var s := nines + rest;
    NinesValue(k);
    Pow10Grows(k);
    assert s[0] == '9';
    assert Unsigned(s) == s;
    assert s[..k] == nines;
    LeadingDigitCountIs(s, k);
    AtoiSaturates(s);
  }

  lemma {:induction false} Pow10Grows(k: nat)
    requires k >= 20
    ensures Pow10(k) - 1 > MaxUint64
  {
    if k > 20 {
      Pow10Grows(k - 1);
    } else {
      assert Pow10(5) == 100000;
      assert Pow10(10) == 10000000000;
      assert Pow10(15) == 1000000000000000;
      assert Pow10(20) == 100000000000000000000;
    }
  }

  /** The query value `99999999999999999999x` reads as the largest 64-bit
      value. */
  lemma AtoiOverflowExample()
    ensures Atoi("99999999999999999999x") == MaxInt64
  {
    AtoiOverflowBeforeNonDigit(20, "x");
    assert seq(20, _ => '9') + "x" == "99999999999999999999x";
  }

  // ---------------------------------------------------------------------------
  // Where the three fields come from
  // ---------------------------------------------------------------------------

  /** The context `GetPageFromCtx` is given: a Gin request (only its query
      string is read) or any other `context.Context` (only `Value` is read). */
  datatype RequestContext =
    | GinContext(query: map<string, string>)
    | PlainContext(values: map<string, Item>)

  /** `c.Query(key)`: a missing parameter reads as the empty string. */
  function Query(query: map<string, string>, key: string): string {
    if key in query then query[key] else ""
  }

  /** `c.Value(key)`: a missing key reads as `nil`. */
  function Lookup(values: map<string, Item>, key: string): Item {
    if key in values then values[key] else Nil
  }

  /** The comma-ok type assertion `x.(int)`: 0 unless the value is an int. */
  function AsInt(x: Item): Int64 {
    if x.Int? then x.n else 0
  }

  /** The comma-ok type assertion `x.(string)`: "" unless the value is a string. */
  function AsString(x: Item): string {
    if x.Str? then x.s else ""
  }

  /** The key the plain-context branch reads the order from, as written. */
  const PlainSortKey: string := "size"
  /** The key it evidently means to read the order from. */
  const IntendedPlainSortKey: string := "sort"

  /** The page before normalisation, with the plain-context order read from
      `sortKey`. A missing query parameter, a missing value and a value of
      another dynamic type all read as 0 or as the empty order. */
  function ReadFields(ctx: RequestContext, sortKey: string): (p: Page)
    ensures ctx.GinContext? && "page" !in ctx.query ==> p.page == 0
    ensures ctx.GinContext? && "size" !in ctx.query ==> p.size == 0
    ensures ctx.GinContext? && "sort" !in ctx.query ==> p.sort == ""
    ensures ctx.PlainContext? && !Lookup(ctx.values, "page").Int? ==> p.page == 0
    ensures ctx.PlainContext? && !Lookup(ctx.values, "size").Int? ==> p.size == 0
    ensures ctx.PlainContext? ==>
      p.sort == if Lookup(ctx.values, sortKey).Str? then Lookup(ctx.values, sortKey).s else ""
    ensures ctx.PlainContext? && Lookup(ctx.values, "page").Int? ==> p.page == Lookup(ctx.values, "page").n
    ensures ctx.PlainContext? && Lookup(ctx.values, "size").Int? ==> p.size == Lookup(ctx.values, "size").n
    ensures ctx.GinContext? ==>
      p.page == Atoi(Query(ctx.query, "page")) && p.size == Atoi(Query(ctx.query, "size")) &&
      p.sort == Query(ctx.query, "sort")
  {
    match ctx
    case GinContext(q) => Page(Atoi(Query(q, "page")), Atoi(Query(q, "size")), Query(q, "sort"))
    case PlainContext(v) => Page(AsInt(Lookup(v, "page")), AsInt(Lookup(v, "size")), AsString(Lookup(v, sortKey)))
  }

  // ---------------------------------------------------------------------------
  // Normalisation
  // ---------------------------------------------------------------------------

  /** The normalisation of `GetPageFromCtx`: every non-positive number and an
      empty order is replaced by its default; everything else is kept. */
  function Normalised(p: Page): (q: Page)
    ensures q.page >= 1 && q.size >= 1 && q.sort != ""
    ensures p.page > 0 ==> q.page == p.page
    ensures p.size > 0 ==> q.size == p.size
    ensures p.sort != "" ==> q.sort == p.sort
    ensures p.page <= 0 ==> q.page == Constant.DefaultPage
    ensures p.size <= 0 ==> q.size == Constant.DefaultPageSize
    ensures p.sort == "" ==> q.sort == Constant.DefaultPageSort
  {
    Page(if p.page <= 0 then Constant.DefaultPage else p.page,
         if p.size <= 0 then Constant.DefaultPageSize else p.size,
         if p.sort == "" then Constant.DefaultPageSort else p.sort)
  }

  /** The pages normalisation keeps are exactly the ones with a positive
      page, a positive size and an order, so it is idempotent. */
  lemma NormalisedFixedPoints(p: Page)
    ensures Normalised(p) == p <==> p.page >= 1 && p.size >= 1 && p.sort != ""
    ensures Normalised(Normalised(p)) == Normalised(p)
  {
  }

  /** The two normalisers agree on every page without negative numbers, and
      disagree on negative ones, which `Pagination` passes through. */
  lemma NormalisersCompared(p: Page)
    ensures p.page >= 0 && p.size >= 0 ==> Normalised(p) == DbUtil.Defaulted(p)
    ensures p.page < 0 ==> Normalised(p).page != DbUtil.Defaulted(p).page
    ensures p.size < 0 ==> Normalised(p).size != DbUtil.Defaulted(p).size
  {
  }

  /** `GetPageFromCtx`: fills the named result field by field from the
      context, then overwrites page, size and order in turn when they are
      out of range. */
  method GetPageFromCtx(ctx: RequestContext) returns (page: Page)
    ensures page.page >= 1 && page.size >= 1 && page.sort != ""
    ensures page == Normalised(ReadFields(ctx, PlainSortKey))
  {
    page := Page(0, 0, "");
    match ctx {
      case GinContext(q) =>
        page := page.(page := Atoi(Query(q, "page")));
        page := page.(size := Atoi(Query(q, "size")));
        page := page.(sort := Query(q, "sort"));
      case PlainContext(v) =>
        page := page.(page := AsInt(Lookup(v, "page")));
        page := page.(size := AsInt(Lookup(v, "size")));
        page := page.(sort := AsString(Lookup(v, "size")));
    }
    if page.page <= 0 {
      page := page.(page := Constant.DefaultPage);
    }
    if page.size <= 0 {
      page := page.(size := Constant.DefaultPageSize);
    }
    if page.sort == "" {
      page := page.(sort := Constant.DefaultPageSort);
    }
  }

  /** A query string whose page and size parameters are missing or are not
      numbers gets the default page and size. */
  lemma UnparseableQueryGetsDefaults(q: map<string, string>)
    requires Atoi(Query(q, "page")) == 0 && Atoi(Query(q, "size")) == 0
    ensures var p := Normalised(ReadFields(GinContext(q), PlainSortKey));
      p.page == Constant.DefaultPage && p.size == Constant.DefaultPageSize
  {
  }

  /** As written, a plain context that supplies its size as an int never
      yields its own order: whatever is stored under "sort", the order is
      the default one. */
  lemma PlainContextIgnoresSortKey(v: map<string, Item>, s: string)
    requires Lookup(v, "size").Int? && Lookup(v, "sort") == Str(s) && s != Constant.DefaultPageSort
    ensures Normalised(ReadFields(PlainContext(v), PlainSortKey)).sort == Constant.DefaultPageSort
    ensures Normalised(ReadFields(PlainContext(v), PlainSortKey)).sort != s
  {
  }

  /** Read from the intended key, a plain context's order is kept whenever
      it is a non-empty string, whatever the size is. */
  lemma IntendedPlainContextKeepsSort(v: map<string, Item>, s: string)
    requires Lookup(v, "sort") == Str(s) && s != ""
    ensures Normalised(ReadFields(PlainContext(v), IntendedPlainSortKey)).sort == s
    ensures Normalised(ReadFields(PlainContext(v), IntendedPlainSortKey)).size
         == Normalised(ReadFields(PlainContext(v), PlainSortKey)).size
  {
  }
}
