/**
 The product catalog: the product record, the six criteria, the "add product"
 form and deletion by index. A catalog is a sequence; a product's identity is its
 position in it.
 */
module Catalog {

  /** A form field after `parseFloat`: a number, or `NaN` for text that does not parse. */
  datatype Input = Num(value: real) | NaN

  /** A candidate product. The six criteria are on a 1..100 scale; `score` is the
      result of the last analysis (0 until the first one). */
  datatype Product = Product(
    name: string,
    demand: real,
    competition: real,
    profit: real,
    capital: real,
    productionTime: real,
    risk: real,
    score: real)

  /** The six criteria, in the order the application lists them everywhere. */
  datatype Criterion = Demand | Competition | Profit | Capital | ProductionTime | Risk

  /** Demand and profit are benefit criteria; the other four are cost criteria. */
  predicate IsBenefit(c: Criterion) {
    c == Demand || c == Profit
  }

  /** The raw value of criterion `c` of product `p`. */
  function Raw(p: Product, c: Criterion): real {
    match c
    case Demand => p.demand
    case Competition => p.competition
    case Profit => p.profit
    case Capital => p.capital
    case ProductionTime => p.productionTime
    case Risk => p.risk
  }

  /** `p` with criterion `c` replaced by `v`, every other field kept. */
  function WithRaw(p: Product, c: Criterion, v: real): (q: Product)
    ensures Raw(q, c) == v
    ensures forall d :: d != c ==> Raw(q, d) == Raw(p, d)
    ensures q.name == p.name && q.score == p.score
  {
    match c
    case Demand => p.(demand := v)
    case Competition => p.(competition := v)
    case Profit => p.(profit := v)
    case Capital => p.(capital := v)
    case ProductionTime => p.(productionTime := v)
    case Risk => p.(risk := v)
  }

  /** The score a ranking sorts by. */
  function ByScore(p: Product): real {
    p.score
  }

  predicate InRange(v: real) {
    1.0 <= v <= 100.0
  }

  /** All six criteria lie on the form's 1..100 scale. */
  predicate CriteriaInRange(p: Product) {
    && InRange(p.demand) && InRange(p.competition) && InRange(p.profit)
    && InRange(p.capital) && InRange(p.productionTime) && InRange(p.risk)
  }

  /** What every product of a catalog built by this application satisfies:
      a non-blank trimmed name, criteria in range, a score in [0, 1]. */
  predicate ValidProduct(p: Product) {
    && p.name != []
    && !IsWhitespace(p.name[0]) && !IsWhitespace(p.name[|p.name| - 1])
    && CriteriaInRange(p)
    && 0.0 <= p.score <= 1.0
  }

  predicate ValidCatalog(ps: seq<Product>) {
    forall i :: 0 <= i < |ps| ==> ValidProduct(ps[i])
  }

  /** Two products that differ at most in their score. */
  predicate SameButScore(p: Product, q: Product) {
    p == q.(score := p.score)
  }

  // ---------------------------------------------------------------- trimming

  /** The characters `String.prototype.trim` removes: ECMAScript WhiteSpace
      (tab, VT, FF, space, NBSP, ZWNBSP and the Zs category) and LineTerminator. */
  predicate IsWhitespace(ch: char) {
    || ch == '\t' || ch == '\U{B}' || ch == '\U{C}' || ch == ' '
    || ch == '\U{A0}' || ch == '\U{FEFF}' || ch == '\U{1680}'
    || ('\U{2000}' <= ch <= '\U{200A}')
    || ch == '\U{202F}' || ch == '\U{205F}' || ch == '\U{3000}'
    || ch == '\n' || ch == '\r' || ch == '\U{2028}' || ch == '\U{2029}'
  }

  /** Every character of `s` from position `lo` up to, not including, `hi` is whitespace. */
  predicate WhitespaceBetween(s: string, lo: nat, hi: nat)
    requires lo <= hi <= |s|
  {
    forall i :: lo <= i < hi ==> IsWhitespace(s[i])
  }

  predicate AllWhitespace(s: string) {
    WhitespaceBetween(s, 0, |s|)
  }

  /** The first position at or after `i` that does not hold whitespace (`|s|` if none). */
  function TextStart(s: string, i: nat): (a: nat)
    requires i <= |s|
    ensures i <= a <= |s|
    ensures WhitespaceBetween(s, i, a)
    ensures a < |s| ==> !IsWhitespace(s[a])
    decreases |s| - i
  {
    if i < |s| && IsWhitespace(s[i]) then TextStart(s, i + 1) else i
  }

  /** The position, at most `j` and at least `lo`, after which only whitespace
      follows up to `j`, and before which (above `lo`) stands a non-whitespace character. */
  function TextEnd(s: string, lo: nat, j: nat): (e: nat)
    requires lo <= j <= |s|
    ensures lo <= e <= j
    ensures WhitespaceBetween(s, e, j)
    ensures e > lo ==> !IsWhitespace(s[e - 1])
    decreases j
  {
    if j > lo && IsWhitespace(s[j - 1]) then TextEnd(s, lo, j - 1) else j
  }

  /** `r` is the slice of `s` starting at `a`, and everything around it is whitespace. */
  predicate TrimmedAt(s: string, r: string, a: nat) {
    && a + |r| <= |s|
    && r == s[a..a + |r|]
    && WhitespaceBetween(s, 0, a)
    && WhitespaceBetween(s, a + |r|, |s|)
  }

  /** `String.prototype.trim`: the longest slice of `s` that neither starts nor
      ends with whitespace, everything cut off being whitespace. */
  function Trim(s: string): (r: string)
    ensures exists a: nat :: TrimmedAt(s, r, a)
    ensures r != [] ==> !IsWhitespace(r[0]) && !IsWhitespace(r[|r| - 1])
  {
    var a := TextStart(s, 0);
    var e := TextEnd(s, a, |s|);
    assert TrimmedAt(s, s[a..e], a);
    s[a..e]
  }

  /** A name trims to nothing exactly when it is all whitespace. */
  lemma TrimEmptyIffBlank(s: string)
    ensures Trim(s) == [] <==> AllWhitespace(s)
  {
    var r := Trim(s);
    var a: nat :| TrimmedAt(s, r, a);
    if r != [] {
      assert r[0] == s[a];
    }
  }

  /** Trimming twice is trimming once. */
  lemma TrimIdempotent(s: string)
    ensures Trim(Trim(s)) == Trim(s)
  {
    var t := Trim(s);
    if t != [] {
      assert TextStart(t, 0) == 0;
      assert TextEnd(t, 0, |t|) == |t|;
      assert t[0..|t|] == t;
    }
  }

  // ---------------------------------------------------------------- adding

  /** The "add product" form, its numeric fields already through `parseFloat`. */
  datatype ProductForm = ProductForm(
    name: string,
    demand: Input,
    competition: Input,
    profit: Input,
    capital: Input,
    productionTime: Input,
    risk: Input)

  /** The six numeric fields in criterion order. */
  function FormValues(f: ProductForm): seq<Input> {
    [f.demand, f.competition, f.profit, f.capital, f.productionTime, f.risk]
  }

  /** A field the form accepts: a number in 1..100 (`NaN` and out-of-range are refused). */
  predicate Accepted(i: Input) {
    i.Num? && InRange(i.value)
  }

  /** The feedback line a submission leaves. */
  datatype SubmitFeedback = NameRequired | ValuesOutOfRange | ProductAdded(name: string)

  datatype Submission = Submission(catalog: seq<Product>, feedback: SubmitFeedback)

  /** Every numeric field of the form is accepted (`values.some(...)` finds nothing). */
  predicate AllAccepted(f: ProductForm) {
    forall i :: 0 <= i < 6 ==> Accepted(FormValues(f)[i])
  }

  /** Submitting the form: the name is trimmed and must be non-empty, then every
      value must be accepted; only then is the product appended, with score 0. */
  function SubmitProduct(ps: seq<Product>, f: ProductForm): (r: Submission)
    ensures r.feedback == NameRequired <==> AllWhitespace(f.name)
    ensures r.feedback == ValuesOutOfRange <==> !AllWhitespace(f.name) && !AllAccepted(f)
    ensures !r.feedback.ProductAdded? ==> r.catalog == ps
    ensures r.feedback.ProductAdded? ==>
      && |r.catalog| == |ps| + 1
      && r.catalog[..|ps|] == ps
      && r.catalog[|ps|].name == r.feedback.name == Trim(f.name) != []
      && FromForm(r.catalog[|ps|], f)
      && r.catalog[|ps|].score == 0.0
  {
    var name := Trim(f.name);
    TrimEmptyIffBlank(f.name);
    if name == [] then
      Submission(ps, NameRequired)
    else if !AllAccepted(f) then
      Submission(ps, ValuesOutOfRange)
    else
      assert Accepted(FormValues(f)[0]) && Accepted(FormValues(f)[1]) && Accepted(FormValues(f)[2]);
      assert Accepted(FormValues(f)[3]) && Accepted(FormValues(f)[4]) && Accepted(FormValues(f)[5]);
      var p := Product(name, f.demand.value, f.competition.value, f.profit.value,
                       f.capital.value, f.productionTime.value, f.risk.value, 0.0);
      Submission(ps + [p], ProductAdded(name))
  }

  /** `p` carries exactly the numbers typed into the six fields of `f`. */
  predicate FromForm(p: Product, f: ProductForm) {
    && f.demand == Num(p.demand) && f.competition == Num(p.competition)
    && f.profit == Num(p.profit) && f.capital == Num(p.capital)
    && f.productionTime == Num(p.productionTime) && f.risk == Num(p.risk)
  }

  /** A catalog of valid products stays valid through any submission. */
  lemma SubmitKeepsCatalogValid(ps: seq<Product>, f: ProductForm)
    requires ValidCatalog(ps)
    ensures ValidCatalog(SubmitProduct(ps, f).catalog)
  {
    var r := SubmitProduct(ps, f);
    if r.feedback.ProductAdded? {
      var p := r.catalog[|ps|];
      var vs := FormValues(f);
      assert AllAccepted(f);
      assert Accepted(vs[0]) && Accepted(vs[1]) && Accepted(vs[2]);
      assert Accepted(vs[3]) && Accepted(vs[4]) && Accepted(vs[5]);
      assert ValidProduct(p);
      forall i | 0 <= i < |r.catalog| ensures ValidProduct(r.catalog[i]) {
        if i < |ps| { assert r.catalog[i] == r.catalog[..|ps|][i]; }
      }
    }
  }

  // ---------------------------------------------------------------- deleting

  /** Deleting the product at `index`, which the user confirmed (or not).
      The index comes from the rendered row, so it is always in range. */
  function DeleteProduct(ps: seq<Product>, index: nat, confirmed: bool): (r: seq<Product>)
    requires index < |ps|
    ensures !confirmed ==> r == ps
    ensures confirmed ==>
      && |r| == |ps| - 1
      && (forall j :: 0 <= j < index ==> r[j] == ps[j])
      && (forall j :: index <= j < |r| ==> r[j] == ps[j + 1])
      && multiset(r) + multiset{ps[index]} == multiset(ps)
  {
    if confirmed then
      assert ps == ps[..index] + [ps[index]] + ps[index + 1..];
      ps[..index] + ps[index + 1..]
    else
      ps
  }

  /** A catalog of valid products stays valid through any deletion. */
  lemma DeleteKeepsCatalogValid(ps: seq<Product>, index: nat, confirmed: bool)
    requires index < |ps| && ValidCatalog(ps)
    ensures ValidCatalog(DeleteProduct(ps, index, confirmed))
  {
  }
}
