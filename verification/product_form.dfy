/** The new-product listing form's state (client/src/components/AddNewProduct.jsx):
    ten text fields, updated one field at a time by `handleInputChange`. The form's
    submit only logs, so it has no model. */
module ProductForm {

  /** The form's field names. */
  datatype Field =
    | ProductName | Category | Variety | FarmLocation | Description
    | Price | Unit | AvailableQuantity | HarvestDate | BestBeforeDate

  /** The `formData` object. */
  datatype Form = Form(
    productName: string, category: string, variety: string, farmLocation: string,
    description: string, price: string, unit: string, availableQuantity: string,
    harvestDate: string, bestBeforeDate: string)

  /** `formData[field]`. */
  function Get(form: Form, field: Field): string {
    match field
    case ProductName => form.productName
    case Category => form.category
    case Variety => form.variety
    case FarmLocation => form.farmLocation
    case Description => form.description
    case Price => form.price
    case Unit => form.unit
    case AvailableQuantity => form.availableQuantity
    case HarvestDate => form.harvestDate
    case BestBeforeDate => form.bestBeforeDate
  }

  /** The initial form: the unit is "per kg", every other field is empty. */
  function InitialForm(): (form: Form)
    ensures Get(form, Unit) == "per kg"
    ensures forall f :: f != Unit ==> Get(form, f) == ""
  {
    Form("", "", "", "", "", "", "per kg", "", "", "")
  }

  /** `handleInputChange(field, value)`: `{...prev, [field]: value}`. */
  function HandleInputChange(form: Form, field: Field, value: string): (r: Form)
    ensures Get(r, field) == value
    ensures forall f :: f != field ==> Get(r, f) == Get(form, f)
  {
    match field
    case ProductName => form.(productName := value)
    case Category => form.(category := value)
    case Variety => form.(variety := value)
    case FarmLocation => form.(farmLocation := value)
    case Description => form.(description := value)
    case Price => form.(price := value)
    case Unit => form.(unit := value)
    case AvailableQuantity => form.(availableQuantity := value)
    case HarvestDate => form.(harvestDate := value)
    case BestBeforeDate => form.(bestBeforeDate := value)
  }

  /** Two forms that agree on every field are the same form. */
  lemma FieldsDetermineForm(a: Form, b: Form)
    requires forall f :: Get(a, f) == Get(b, f)
    ensures a == b
  {
    assert Get(a, ProductName) == Get(b, ProductName) && Get(a, Category) == Get(b, Category);
    assert Get(a, Variety) == Get(b, Variety) && Get(a, FarmLocation) == Get(b, FarmLocation);
    assert Get(a, Description) == Get(b, Description) && Get(a, Price) == Get(b, Price);
    assert Get(a, Unit) == Get(b, Unit) && Get(a, AvailableQuantity) == Get(b, AvailableQuantity);
    assert Get(a, HarvestDate) == Get(b, HarvestDate) && Get(a, BestBeforeDate) == Get(b, BestBeforeDate);
  }

  /** Writing a field's current value changes nothing; a second write to the same
      field overrides the first; writes to different fields commute. */
  lemma WriteCurrentValueIsNoOp(form: Form, field: Field)
    ensures HandleInputChange(form, field, Get(form, field)) == form
  {
    FieldsDetermineForm(HandleInputChange(form, field, Get(form, field)), form);
  }

  lemma LastWriteWins(form: Form, field: Field, v1: string, v2: string)
    ensures HandleInputChange(HandleInputChange(form, field, v1), field, v2) == HandleInputChange(form, field, v2)
  {
    FieldsDetermineForm(HandleInputChange(HandleInputChange(form, field, v1), field, v2),
                        HandleInputChange(form, field, v2));
  }

  lemma DistinctWritesCommute(form: Form, f1: Field, v1: string, f2: Field, v2: string)
    requires f1 != f2
    ensures HandleInputChange(HandleInputChange(form, f1, v1), f2, v2)
            == HandleInputChange(HandleInputChange(form, f2, v2), f1, v1)
  {
    FieldsDetermineForm(HandleInputChange(HandleInputChange(form, f1, v1), f2, v2),
                        HandleInputChange(HandleInputChange(form, f2, v2), f1, v1));
  }
}
