/** The product form shared by the add-product page and the product page: its
    validation schema (the two pages declare the same one), the tag editor, submission
    and prefill, and the product page's permission gating of the inputs. */
module ProductForms {
  import opened JsUtil
  import opened Policy
  import opened Stores
  import opened Products

  /** The values the form holds. Prices and stock counts are numbers; the tags list may
      be absent (a product saved without one). */
  datatype ProductFormValues = ProductFormValues(
    name: string,
    description: string,
    price: real,
    inventory: real,
    tags: Option<seq<string>>)

  // ---------------------------------------------------------------------------
  // Validation

  datatype Field = NameField | DescriptionField | PriceField | InventoryField

  /** The kind of failed check; `Custom` is an issue added by the schema's refinement. */
  datatype Check = TooShort(minimum: nat) | TooLong(maximum: nat) | Negative | Custom

  /** A validation issue; `message` is None where the validation library's default
      message applies. */
  datatype Issue = Issue(path: Field, check: Check, message: Option<string>)

  /** The checks of the name: `min(4)` then `nonempty()` (a minimum of 1). Lengths count
      UTF-16 code units. */
  function NameIssues(name: string): (issues: seq<Issue>)
    ensures forall i :: 0 <= i < |issues| ==> issues[i].path == NameField
    ensures issues == [] <==> JsLength(name) >= 4
  {
    (if JsLength(name) < 4 then [Issue(NameField, TooShort(4), None)] else []) +
    (if JsLength(name) < 1 then [Issue(NameField, TooShort(1), None)] else [])
  }

  /** The checks of the description: `nonempty()`, `min(50)`, `max(300)`. */
  function DescriptionIssues(description: string): (issues: seq<Issue>)
    ensures forall i :: 0 <= i < |issues| ==> issues[i].path == DescriptionField
    ensures issues == [] <==> 50 <= JsLength(description) <= 300
  {
    (if JsLength(description) < 1 then [Issue(DescriptionField, TooShort(1), None)] else []) +
    (if JsLength(description) < 50 then
       [Issue(DescriptionField, TooShort(50), Some("Please at least 50 characters into this field."))]
     else []) +
    (if JsLength(description) > 300 then
       [Issue(DescriptionField, TooLong(300), Some("This field should not have more than 300 characters."))]
     else [])
  }

  /** `nonnegative()` on a number field. */
  function NonNegativeIssues(f: Field, x: real): (issues: seq<Issue>)
    ensures forall i :: 0 <= i < |issues| ==> issues[i].path == f
    ensures issues == [] <==> x >= 0.0
  {
    if x < 0.0 then [Issue(f, Negative, None)] else []
  }

  /** The per-field checks, in declaration order. */
  function FieldIssues(v: ProductFormValues): seq<Issue> {
    NameIssues(v.name) + DescriptionIssues(v.description) +
    NonNegativeIssues(PriceField, v.price) + NonNegativeIssues(InventoryField, v.inventory)
  }

  /** The refinement: a price below 1 is reported and the refinement RETURNS, so the
      stock check is reached only for a price of at least 1. */
  function RefinementIssues(price: real, inventory: real): (issues: seq<Issue>)
    ensures |issues| <= 1
    ensures price < 1.0 ==> issues == [Issue(PriceField, Custom, Some("Please enter a valid price for the product!"))]
    ensures price >= 1.0 && inventory < 1.0 ==>
      issues == [Issue(InventoryField, Custom, Some("Please enter a valid number of products available!"))]
    ensures issues == [] <==> price >= 1.0 && inventory >= 1.0
  {
    if price < 1.0 then [Issue(PriceField, Custom, Some("Please enter a valid price for the product!"))]
    else if inventory < 1.0 then [Issue(InventoryField, Custom, Some("Please enter a valid number of products available!"))]
    else []
  }

  /** All issues of the schema; the refinement runs after the field checks. */
  function ProductFormIssues(v: ProductFormValues): seq<Issue> {
    FieldIssues(v) + RefinementIssues(v.price, v.inventory)
  }

  predicate HasIssueOn(issues: seq<Issue>, f: Field) {
    exists i :: 0 <= i < |issues| && issues[i].path == f
  }

  /** The schema accepts exactly a name of at least 4 units, a description of 50 to 300
      units, and a price and a stock count of at least 1. */
  lemma ProductFormAccepted(v: ProductFormValues)
    ensures ProductFormIssues(v) == [] <==>
      JsLength(v.name) >= 4 && 50 <= JsLength(v.description) <= 300 && v.price >= 1.0 && v.inventory >= 1.0
  {
  }

  lemma ConcatHasIssue(a: seq<Issue>, b: seq<Issue>, f: Field)
    ensures HasIssueOn(a + b, f) <==> HasIssueOn(a, f) || HasIssueOn(b, f)
  {
    if HasIssueOn(a + b, f) {
      var i :| 0 <= i < |a + b| && (a + b)[i].path == f;
      if i < |a| {
        assert a[i].path == f;
      } else {
        assert b[i - |a|].path == f;
      }
    }
    if HasIssueOn(a, f) {
      var i :| 0 <= i < |a| && a[i].path == f;
      assert (a + b)[i].path == f;
    }
    if HasIssueOn(b, f) {
      var i :| 0 <= i < |b| && b[i].path == f;
      assert (a + b)[|a| + i].path == f;
    }
  }

  /** A list whose issues all sit on field g has an issue on f exactly when it is
      non-empty and f is g. */
  lemma UniformPath(issues: seq<Issue>, g: Field, f: Field)
    requires forall i :: 0 <= i < |issues| ==> issues[i].path == g
    ensures HasIssueOn(issues, f) <==> issues != [] && f == g
  {
    if issues != [] && f == g {
      assert issues[0].path == f;
    }
  }

  /** Which fields get an error. A stock count between 0 and 1 is reported only once the
      price is valid, because the refinement stops at the price. */
  lemma ProductFormIssuesPerField(v: ProductFormValues, f: Field)
    ensures f == NameField ==> (HasIssueOn(ProductFormIssues(v), f) <==> JsLength(v.name) < 4)
    ensures f == DescriptionField ==>
      (HasIssueOn(ProductFormIssues(v), f) <==> JsLength(v.description) < 50 || JsLength(v.description) > 300)
    ensures f == PriceField ==> (HasIssueOn(ProductFormIssues(v), f) <==> v.price < 1.0)
    ensures f == InventoryField ==>
      (HasIssueOn(ProductFormIssues(v), f) <==> v.inventory < 0.0 || (v.inventory < 1.0 && v.price >= 1.0))
  {
    var n := NameIssues(v.name);
    var d := DescriptionIssues(v.description);
    var p := NonNegativeIssues(PriceField, v.price);
    var k := NonNegativeIssues(InventoryField, v.inventory);
    var r := RefinementIssues(v.price, v.inventory);
    ConcatHasIssue(n, d, f);
    ConcatHasIssue(n + d, p, f);
    ConcatHasIssue(n + d + p, k, f);
    ConcatHasIssue(n + d + p + k, r, f);
    UniformPath(n, NameField, f);
    UniformPath(d, DescriptionField, f);
    UniformPath(p, PriceField, f);
    UniformPath(k, InventoryField, f);
    if v.price < 1.0 {
      UniformPath(r, PriceField, f);
    } else {
      UniformPath(r, InventoryField, f);
    }
  }

  // ---------------------------------------------------------------------------
  // The tag editor

  /** Enter in the tag input: the current text is appended to the list, an absent or
      empty list counting as empty. Nothing is trimmed, and neither an empty tag nor a
      repeated one is refused. */
  function AppendTag(tags: Option<seq<string>>, tag: string): (r: seq<string>)
    ensures r == tags.GetOr([]) + [tag]
    ensures |r| == |tags.GetOr([])| + 1 && r[|r| - 1] == tag
  {
    if tags.Some? && |tags.value| > 0 then tags.value + [tag] else [tag]
  }

  /** A tag chip's close icon: every occurrence of that tag is dropped; all other tags
      keep their number of occurrences. */
  function RemoveTag(tags: seq<string>, tag: string): (r: seq<string>)
    ensures tag !in r
    ensures forall t :: t != tag ==> multiset(r)[t] == multiset(tags)[t]
    ensures |r| <= |tags|
  {
    if tags == [] then []
    else
      assert tags == [tags[0]] + tags[1..];
      (if tags[0] == tag then [] else [tags[0]]) + RemoveTag(tags[1..], tag)
  }

  /** Removal keeps the order of what remains: it works piecewise over a concatenation. */
  lemma {:induction false} RemoveTagConcat(a: seq<string>, b: seq<string>, tag: string)
    ensures RemoveTag(a + b, tag) == RemoveTag(a, tag) + RemoveTag(b, tag)
  {
    if a == [] {
      assert a + b == b;
    } else {
      assert (a + b)[0] == a[0];
      assert (a + b)[1..] == a[1..] + b;
      RemoveTagConcat(a[1..], b, tag);
    }
  }

  /** Removing a tag that is not there changes nothing. */
  lemma {:induction false} RemoveAbsentTag(tags: seq<string>, tag: string)
    requires tag !in tags
    ensures RemoveTag(tags, tag) == tags
  {
    if tags != [] {
      assert tag !in tags[1..];
      RemoveAbsentTag(tags[1..], tag);
    }
  }

  /** Adding a tag and then closing its chip leaves the list as it was with that tag
      removed everywhere: a tag that was already there is removed too. */
  lemma RemoveAfterAppend(tags: Option<seq<string>>, tag: string)
    ensures RemoveTag(AppendTag(tags, tag), tag) == RemoveTag(tags.GetOr([]), tag)
    ensures tag !in tags.GetOr([]) ==> RemoveTag(AppendTag(tags, tag), tag) == tags.GetOr([])
  {
    RemoveTagConcat(tags.GetOr([]), [tag], tag);
    assert RemoveTag([tag], tag) == [];
    assert RemoveTag(tags.GetOr([]), tag) + [] == RemoveTag(tags.GetOr([]), tag);
    if tag !in tags.GetOr([]) {
      RemoveAbsentTag(tags.GetOr([]), tag);
    }
  }

  // ---------------------------------------------------------------------------
  // Editing the form

  /** The form's values together with the tag input's text. */
  datatype FormState = FormState(values: ProductFormValues, currentTag: string)

  /** One user action on the form. */
  datatype FormEdit =
    | SetName(name: string)
    | SetDescription(description: string)
    | SetPrice(price: real)
    | SetInventory(inventory: real)
    | TypeTag(text: string)
    | PressEnterOnTag
    | RemoveTagChip(tag: string)

  /** The effect of one action; each action changes its own field and nothing else. A
      chip is only shown when the tag list exists. */
  function ApplyEdit(st: FormState, e: FormEdit): (r: FormState)
    ensures e.SetName? ==> r.values.name == e.name
    ensures !e.SetName? ==> r.values.name == st.values.name
    ensures e.SetDescription? ==> r.values.description == e.description
    ensures !e.SetDescription? ==> r.values.description == st.values.description
    ensures e.SetPrice? ==> r.values.price == e.price
    ensures !e.SetPrice? ==> r.values.price == st.values.price
    ensures e.SetInventory? ==> r.values.inventory == e.inventory
    ensures !e.SetInventory? ==> r.values.inventory == st.values.inventory
    ensures e.PressEnterOnTag? ==> r.values.tags == Some(AppendTag(st.values.tags, st.currentTag))
    ensures e.RemoveTagChip? && st.values.tags.Some? ==> r.values.tags == Some(RemoveTag(st.values.tags.value, e.tag))
    ensures !(e.PressEnterOnTag? || e.RemoveTagChip?) || (e.RemoveTagChip? && st.values.tags.None?) ==>
      r.values.tags == st.values.tags
    ensures e.TypeTag? ==> r.currentTag == e.text
    ensures e.PressEnterOnTag? ==> r.currentTag == ""
    ensures !(e.TypeTag? || e.PressEnterOnTag?) ==> r.currentTag == st.currentTag
  {
    var v := st.values;
    match e
    case SetName(name) => st.(values := v.(name := name))
    case SetDescription(description) => st.(values := v.(description := description))
    case SetPrice(price) => st.(values := v.(price := price))
    case SetInventory(inventory) => st.(values := v.(inventory := inventory))
    case TypeTag(text) => st.(currentTag := text)
    case PressEnterOnTag => FormState(v.(tags := Some(AppendTag(v.tags, st.currentTag))), "")
    case RemoveTagChip(tag) =>
      if v.tags.Some? then st.(values := v.(tags := Some(RemoveTag(v.tags.value, tag)))) else st
  }

  function ApplyEdits(st: FormState, edits: seq<FormEdit>): FormState
    decreases |edits|
  {
    if edits == [] then st else ApplyEdits(ApplyEdit(st, edits[0]), edits[1..])
  }

  /** The payload handed to `useAddProduct` / `useUpdateProduct`: the stock count goes out
      as `availableStock`. */
  function SubmitPayload(v: ProductFormValues): (p: AddProductPayload)
    ensures p.name == v.name && p.description == v.description && p.price == v.price
    ensures p.tags == v.tags && p.availableStock == v.inventory
  {
    AddProductPayload(v.name, v.description, v.price, v.tags, v.inventory)
  }

  /** The values the add-product page resets the form to after a save. */
  const ClearedValues: ProductFormValues := ProductFormValues("", "", 0.0, 0.0, Some([]))

  /** The values the product page loads on mount: the product's own, with the stock
      count left (`left || 0`). */
  function PrefilledValues(p: Product): (v: ProductFormValues)
    ensures v.name == p.name && v.description == p.description && v.price == p.price && v.tags == p.tags
    ensures p.inventory.left.Some? ==> v.inventory == p.inventory.left.value
    ensures p.inventory.left.None? ==> v.inventory == 0.0
  {
    ProductFormValues(p.name, p.description, p.price, p.inventory.left.GetOr(0.0), p.tags)
  }

  /** What the save call yields: a product id (possibly empty) or a thrown error. */
  datatype SaveOutcome = Saved(productId: string) | Threw(message: string)

  /** The form of either page, with its tag input and its "saving" flag. */
  class ProductForm {
    var values: ProductFormValues
    var currentTag: string
    var isSaving: bool

    constructor (initial: ProductFormValues)
      ensures values == initial && currentTag == "" && !isSaving
    {
      values := initial;
      currentTag := "";
      isSaving := false;
    }

    function State(): FormState
      reads this
    {
      FormState(values, currentTag)
    }

    /** One user action. */
    method Edit(e: FormEdit)
      modifies this
      ensures State() == ApplyEdit(old(State()), e)
      ensures isSaving == old(isSaving)
    {
      match e
      case SetName(name) => values := values.(name := name);
      case SetDescription(description) => values := values.(description := description);
      case SetPrice(price) => values := values.(price := price);
      case SetInventory(inventory) => values := values.(inventory := inventory);
      case TypeTag(text) => currentTag := text;
      case PressEnterOnTag =>
        values := values.(tags := Some(AppendTag(values.tags, currentTag)));
        currentTag := "";
      case RemoveTagChip(tag) =>
        if values.tags.Some? {
          values := values.(tags := Some(RemoveTag(values.tags.value, tag)));
        }
    }

    /** The product page's mount effect: load the product, when it is there. */
    method Prefill(product: Option<Product>)
      modifies this
      ensures product.Some? ==> values == PrefilledValues(product.value)
      ensures product.None? ==> values == old(values)
      ensures currentTag == old(currentTag) && isSaving == old(isSaving)
    {
      if product.Some? {
        var p := product.value;
        values := values.(name := p.name);
        values := values.(description := p.description);
        values := values.(price := p.price);
        values := values.(tags := p.tags);
        values := values.(inventory := if p.inventory.left.Some? then p.inventory.left.value else 0.0);
      }
    }

    /** The add-product page's save button: nothing is sent while the schema reports an
        issue; otherwise the values are sent, a truthy product id clears the form, an
        empty one leaves it saving, and an error ends the saving state. */
    method SubmitNewProduct(outcome: SaveOutcome) returns (sent: Option<AddProductPayload>)
      modifies this
      ensures ProductFormIssues(old(values)) != [] ==> sent.None? && values == old(values) && isSaving == old(isSaving)
      ensures ProductFormIssues(old(values)) == [] ==> sent == Some(SubmitPayload(old(values)))
      ensures ProductFormIssues(old(values)) == [] && outcome.Saved? && outcome.productId != "" ==>
        values == ClearedValues && !isSaving
      ensures ProductFormIssues(old(values)) == [] && outcome.Saved? && outcome.productId == "" ==>
        values == old(values) && isSaving
      ensures ProductFormIssues(old(values)) == [] && outcome.Threw? ==> values == old(values) && !isSaving
      ensures currentTag == old(currentTag)
    {
      if ProductFormIssues(values) != [] {
        return None;
      }
      isSaving := true;
      sent := Some(SubmitPayload(values));
      if outcome.Saved? {
        if outcome.productId != "" {
          isSaving := false;
          values := values.(name := "");
          values := values.(description := "");
          values := values.(inventory := 0.0);
          values := values.(price := 0.0);
          values := values.(tags := Some([]));
        }
      } else {
        isSaving := false;
      }
    }

    /** The product page's "Save Changes": the same, except that a save keeps the values. */
    method SubmitUpdate(outcome: SaveOutcome) returns (sent: Option<AddProductPayload>)
      modifies this
      ensures ProductFormIssues(old(values)) != [] ==> sent.None? && isSaving == old(isSaving)
      ensures ProductFormIssues(old(values)) == [] ==> sent == Some(SubmitPayload(old(values)))
      ensures ProductFormIssues(old(values)) == [] ==>
        (isSaving <==> outcome.Saved? && outcome.productId == "")
      ensures values == old(values) && currentTag == old(currentTag)
    {
      if ProductFormIssues(values) != [] {
        return None;
      }
      isSaving := true;
      sent := Some(SubmitPayload(values));
      if outcome.Threw? || outcome.productId != "" {
        isSaving := false;
      }
    }
  }

  /** The cleared form does not pass the schema: a second product needs new input. */
  lemma ClearedFormIsRejected()
    ensures ProductFormIssues(ClearedValues) != []
    ensures HasIssueOn(ProductFormIssues(ClearedValues), NameField)
    ensures HasIssueOn(ProductFormIssues(ClearedValues), PriceField)
    ensures !HasIssueOn(ProductFormIssues(ClearedValues), InventoryField)
  {
    ProductFormIssuesPerField(ClearedValues, NameField);
    ProductFormIssuesPerField(ClearedValues, PriceField);
    ProductFormIssuesPerField(ClearedValues, InventoryField);
  }

  /** A product added from an accepted form is priced at least 1, stocks what the form
      said, none of it sold, and carries the form's tags or none. */
  lemma ProductAddedFromForm(v: ProductFormValues, docId: string, viewerUid: Option<string>, storeId: string)
    requires ProductFormIssues(v) == []
    ensures var p := NewProduct(docId, SubmitPayload(v), viewerUid, storeId);
      p.price >= 1.0 && p.inventory.total == v.inventory >= 1.0 && p.inventory.left == Some(v.inventory) &&
      p.inventory.sold == Some(0.0) && p.tags == Some(v.tags.GetOr([])) && p.name == v.name
  {
    ProductFormAccepted(v);
  }

  /** Opening a freshly added product and saving it unchanged sends back what was added. */
  lemma PrefillRoundTrip(docId: string, data: AddProductPayload, viewerUid: Option<string>, storeId: string)
    ensures var back := SubmitPayload(PrefilledValues(NewProduct(docId, data, viewerUid, storeId)));
      back.name == data.name && back.description == data.description && back.price == data.price &&
      back.availableStock == data.availableStock && back.tags == Some(data.tags.GetOr([]))
  {
  }

  // ---------------------------------------------------------------------------
  // The product page

  /** What the product page shows. `productFieldsEnabled` and `inventoryEnabled` are the
      negations of the `disabled` conditions the page computes: the first for the name,
      description, price and tag inputs, which share one condition, the second for the
      stock input. The input components do not apply them (see `EditEnabledAsWritten`). */
  datatype ProductPageView = ProductPageView(
    editButtonShown: bool,
    banner: Option<string>,
    productFieldsEnabled: bool,
    inventoryEnabled: bool,
    saveShown: bool)

  function ProductPage(isEdit: bool, canUpdateProduct: bool, canUpdateInventory: bool): (v: ProductPageView)
    ensures v.editButtonShown <==> !isEdit
    ensures v.saveShown <==> isEdit
    ensures v.banner.Some? <==> isEdit
    ensures isEdit && canUpdateProduct ==> v.banner == Some("You can make changes to the product")
    ensures isEdit && !canUpdateProduct && canUpdateInventory ==>
      v.banner == Some("You can only update the inventory for the product")
    ensures isEdit && !canUpdateProduct && !canUpdateInventory ==> v.banner == Some("")
    ensures v.productFieldsEnabled <==> isEdit && canUpdateProduct
    ensures v.inventoryEnabled <==> isEdit && canUpdateInventory
  {
    ProductPageView(
      !isEdit,
      if isEdit then
        Some(if canUpdateProduct then "You can make changes to the product"
             else if canUpdateInventory then "You can only update the inventory for the product"
             else "")
      else None,
      !(!isEdit || !canUpdateProduct),
      !(!isEdit || !canUpdateInventory),
      isEdit)
  }

  /** The page for the acting member of a store. */
  function ProductPageFor(store: Store, acting: TeamMember, isEdit: bool): ProductPageView {
    ProductPage(isEdit, CheckIfAuthenticatedTeamMemberCan(store, acting, UpdateProduct, []),
                CheckIfAuthenticatedTeamMemberCan(store, acting, UpdateInventory, []))
  }

  /** Owners and admins may edit everything once in edit mode; a manager may edit only the
      stock count; a member without an id may edit nothing. */
  lemma ProductPageByRole(store: Store, acting: TeamMember, isEdit: bool)
    ensures var v := ProductPageFor(store, acting, isEdit);
      (acting.id != "" && RoleOf(store, acting.id) == Manager ==>
         !v.productFieldsEnabled && (v.inventoryEnabled <==> isEdit) &&
         (isEdit ==> v.banner == Some("You can only update the inventory for the product"))) &&
      (acting.id != "" && RoleOf(store, acting.id) != Manager ==>
         (v.productFieldsEnabled <==> isEdit) && (v.inventoryEnabled <==> isEdit) &&
         (isEdit ==> v.banner == Some("You can make changes to the product"))) &&
      (acting.id == "" ==> !v.productFieldsEnabled && !v.inventoryEnabled && (isEdit ==> v.banner == Some("")))
  {
    PolicyTableExact(UpdateProduct);
    PolicyTableExact(UpdateInventory);
  }

  /** Whether an action reaches the form, as written. `InputField` and `InputAreaField`
      take no `disabled` prop and the chip's close icon has no gate, so the conditions the
      page computes never reach an input: every action goes through, for every member, in
      and out of edit mode. */
  predicate EditEnabledAsWritten(v: ProductPageView, e: FormEdit) {
    true
  }

  /** The gate as evidently intended: the stock input follows its own condition, and every
      other action, closing a tag chip included, follows the product condition. */
  predicate EditEnabled(v: ProductPageView, e: FormEdit) {
    if e.SetInventory? then v.inventoryEnabled else v.productFieldsEnabled
  }

  /** As written, a manager, in edit mode or not, renames the product, rewrites its
      description and price and removes a tag, although the page computes every product
      input as disabled for them and the intended gate refuses each of these actions. */
  lemma ManagerEditsAnyFieldAsWritten(store: Store, acting: TeamMember, isEdit: bool, st: FormState,
                                      name: string, description: string, price: real, tag: string)
    requires acting.id != "" && RoleOf(store, acting.id) == Manager
    ensures var v := ProductPageFor(store, acting, isEdit);
      var edits := [SetName(name), SetDescription(description), SetPrice(price), RemoveTagChip(tag)];
      var r := ApplyEdits(st, edits).values;
      !v.productFieldsEnabled &&
      (forall i :: 0 <= i < |edits| ==> EditEnabledAsWritten(v, edits[i]) && !EditEnabled(v, edits[i])) &&
      r.name == name && r.description == description && r.price == price && r.inventory == st.values.inventory &&
      (st.values.tags.Some? ==> r.tags == Some(RemoveTag(st.values.tags.value, tag)))
  {
    ProductPageByRole(store, acting, isEdit);
    var edits := [SetName(name), SetDescription(description), SetPrice(price), RemoveTagChip(tag)];
    var s1 := ApplyEdit(st, edits[0]);
    var s2 := ApplyEdit(s1, edits[1]);
    var s3 := ApplyEdit(s2, edits[2]);
    var s4 := ApplyEdit(s3, edits[3]);
    assert ApplyEdits(s4, edits[4..]) == s4;
    assert ApplyEdits(s3, edits[3..]) == s4 by { assert edits[3..][1..] == edits[4..]; }
    assert ApplyEdits(s2, edits[2..]) == s4 by { assert edits[2..][1..] == edits[3..]; }
    assert ApplyEdits(s1, edits[1..]) == s4 by { assert edits[1..][1..] == edits[2..]; }
  }

  /** With the intended gate, while the product inputs are disabled any series of allowed
      actions changes the stock count at most. */
  lemma {:induction false} DisabledFieldsStayUnchanged(v: ProductPageView, st: FormState, edits: seq<FormEdit>)
    requires !v.productFieldsEnabled
    requires forall i :: 0 <= i < |edits| ==> EditEnabled(v, edits[i])
    ensures var r := ApplyEdits(st, edits).values;
      r == st.values.(inventory := r.inventory)
    decreases |edits|
  {
    if edits != [] {
      var e := edits[0];
      assert EditEnabled(v, e);
      assert e.SetInventory?;
      var st1 := ApplyEdit(st, e);
      assert st1.values == st.values.(inventory := e.inventory);
      assert forall i :: 0 <= i < |edits[1..]| ==> edits[1..][i] == edits[i + 1];
      DisabledFieldsStayUnchanged(v, st1, edits[1..]);
    }
  }

  /** So a manager's edits, gated as intended, change only the stock count. */
  lemma ManagerEditsOnlyInventory(store: Store, acting: TeamMember, st: FormState, edits: seq<FormEdit>)
    requires acting.id != "" && RoleOf(store, acting.id) == Manager
    requires forall i :: 0 <= i < |edits| ==> EditEnabled(ProductPageFor(store, acting, true), edits[i])
    ensures var r := ApplyEdits(st, edits).values;
      r == st.values.(inventory := r.inventory)
  {
    ProductPageByRole(store, acting, true);
    DisabledFieldsStayUnchanged(ProductPageFor(store, acting, true), st, edits);
  }
}
