/**
 * The product payload of the API and its two presence checks. The create
 * check and the update check are deliberately different: the update check
 * ignores the image URL and the price.
 */
module Schema {

  import opened Wrappers
  import opened ErrorHelper

  datatype Category = Category(id: int, name: string)

  /** `api.Product`; the rating is a Go `float32`, modelled as a real. */
  datatype Product = Product(
    id: int,
    sku: string,
    title: string,
    description: string,
    category: Category,
    imageUrl: string,
    weight: int,
    price: int,
    rating: real)

  /** The zero `api.Product`, returned beside every error. */
  const ZeroProduct := Product(0, "", "", "", Category(0, ""), "", 0, 0, 0.0)

  /** One presence check: whether it passes, and the message it fails with. */
  datatype Check = Check(passes: bool, message: string)

  /** The error of a chain of `if … return` checks: the first failing one decides. */
  function FirstFailure(checks: seq<Check>): (err: Option<Error>)
    decreases |checks|
  {
    if |checks| == 0 then None
    else if !checks[0].passes then Some(New(checks[0].message))
    else FirstFailure(checks[1..])
  }

  /** The chain passes exactly when every check passes; otherwise the earliest failure names the error. */
  lemma {:induction false} FirstFailureMeaning(checks: seq<Check>)
    ensures FirstFailure(checks).None? <==> forall i :: 0 <= i < |checks| ==> checks[i].passes
    ensures FirstFailure(checks).Some? ==>
      exists i :: 0 <= i < |checks| && !checks[i].passes
        && (forall j :: 0 <= j < i ==> checks[j].passes)
        && FirstFailure(checks) == Some(New(checks[i].message))
    decreases |checks|
  {
    if |checks| > 0 && checks[0].passes {
      FirstFailureMeaning(checks[1..]);
      if FirstFailure(checks).Some? {
        var i :| 0 <= i < |checks[1..]| && !checks[1..][i].passes
          && (forall j :: 0 <= j < i ==> checks[1..][j].passes)
          && FirstFailure(checks[1..]) == Some(New(checks[1..][i].message));
        assert forall j :: 0 <= j < i + 1 ==> checks[j].passes by {
          forall j | 0 <= j < i + 1 ensures checks[j].passes {
            if j > 0 { assert checks[j] == checks[1..][j - 1]; }
          }
        }
        assert !checks[i + 1].passes;
      }
      assert forall i :: 0 <= i < |checks[1..]| ==> checks[1..][i] == checks[i + 1];
    }
  }

  /** The create checks, in the order the source tests them. */
  function CreateChecks(p: Product): seq<Check>
  {
    [ Check(p.sku != "", "empty SKU"),
      Check(p.title != "", "empty title"),
      Check(p.description != "", "empty description"),
      Check(p.imageUrl != "", "empty image url"),
      Check(p.category.id != 0, "empty category id"),
      Check(p.price != 0, "empty price") ]
  }

  /** The update checks: the create checks without the image URL and the price. */
  function UpdateChecks(p: Product): seq<Check>
  {
    [ Check(p.sku != "", "empty SKU"),
      Check(p.title != "", "empty title"),
      Check(p.description != "", "empty description"),
      Check(p.category.id != 0, "empty category id") ]
  }

  /** The fields a create request must carry; a negative category id or price counts as present. */
  predicate CreatePayloadComplete(p: Product)
  {
    p.sku != "" && p.title != "" && p.description != "" && p.imageUrl != ""
    && p.category.id != 0 && p.price != 0
  }

  /** The fields an update request must carry. */
  predicate UpdatePayloadComplete(p: Product)
  {
    p.sku != "" && p.title != "" && p.description != "" && p.category.id != 0
  }

  /** `Product.ValidateCreate`: the error of the first missing field among SKU, title, description, image URL, category id, price. */
  function ValidateCreate(p: Product): (err: Option<Error>)
    ensures err.None? <==> CreatePayloadComplete(p)
  {
    if p.sku == "" then Some(New("empty SKU"))
    else if p.title == "" then Some(New("empty title"))
    else if p.description == "" then Some(New("empty description"))
    else if p.imageUrl == "" then Some(New("empty image url"))
    else if p.category.id == 0 then Some(New("empty category id"))
    else if p.price == 0 then Some(New("empty price"))
    else None
  }

  /** `Product.ValidateUpdate`: the error of the first missing field among SKU, title, description, category id. */
  function ValidateUpdate(p: Product): (err: Option<Error>)
    ensures err.None? <==> UpdatePayloadComplete(p)
  {
    if p.sku == "" then Some(New("empty SKU"))
    else if p.title == "" then Some(New("empty title"))
    else if p.description == "" then Some(New("empty description"))
    else if p.category.id == 0 then Some(New("empty category id"))
    else None
  }

  /** One step of the chain: a passing head hands over to the rest. */
  lemma FirstFailureStep(checks: seq<Check>)
    requires |checks| > 0
    ensures FirstFailure(checks) == if checks[0].passes then FirstFailure(checks[1..]) else Some(New(checks[0].message))
  {
  }

  /** The create check is the chain of its checks in source order: the first missing field names the error. */
  lemma {:induction false} ValidateCreateIsChain(p: Product)
    ensures ValidateCreate(p) == FirstFailure(CreateChecks(p))
  {
    var cs := CreateChecks(p);
    FirstFailureStep(cs);
    FirstFailureStep(cs[1..]);
    FirstFailureStep(cs[2..]);
    FirstFailureStep(cs[3..]);
    FirstFailureStep(cs[4..]);
    FirstFailureStep(cs[5..]);
    assert cs[1..][1..] == cs[2..] && cs[2..][1..] == cs[3..] && cs[3..][1..] == cs[4..];
    assert cs[4..][1..] == cs[5..] && cs[5..][1..] == [];
  }

  /** The update check is the chain of its four checks in source order. */
  lemma {:induction false} ValidateUpdateIsChain(p: Product)
    ensures ValidateUpdate(p) == FirstFailure(UpdateChecks(p))
  {
    var cs := UpdateChecks(p);
    FirstFailureStep(cs);
    FirstFailureStep(cs[1..]);
    FirstFailureStep(cs[2..]);
    FirstFailureStep(cs[3..]);
    assert cs[1..][1..] == cs[2..] && cs[2..][1..] == cs[3..] && cs[3..][1..] == [];
  }

  /** Every product the create check accepts is accepted by the update check. */
  lemma CreateImpliesUpdate(p: Product)
    ensures ValidateCreate(p).None? ==> ValidateUpdate(p).None?
  {
  }

  /** The converse fails: a product without image URL and price passes the update check only. */
  lemma UpdateDoesNotImplyCreate()
    ensures var p := Product(0, "IND005", "title", "description", Category(5, ""), "", 0, 0, 0.0);
      ValidateUpdate(p).None? && ValidateCreate(p) == Some(New("empty image url"))
  {
  }

  /** The zero checks are `== 0`: a negative category id and a negative price pass. */
  lemma NegativeIdAndPricePass()
    ensures var p := Product(0, "IND001", "Foo", "Makanan ringan", Category(-1, ""), "https://img", 0, -1000, 0.0);
      ValidateCreate(p).None? && ValidateUpdate(p).None?
  {
  }

  /** The update check reads only the SKU, title, description and category id. */
  lemma UpdateReadsOnly(p: Product, q: Product)
    requires p.sku == q.sku && p.title == q.title && p.description == q.description
    requires p.category.id == q.category.id
    ensures ValidateUpdate(p) == ValidateUpdate(q)
  {
  }

  /** The create check does not read the id, weight, rating or category name. */
  lemma CreateReadsOnly(p: Product, q: Product)
    requires p.sku == q.sku && p.title == q.title && p.description == q.description
    requires p.imageUrl == q.imageUrl && p.category.id == q.category.id && p.price == q.price
    ensures ValidateCreate(p) == ValidateCreate(q)
  {
  }
}
