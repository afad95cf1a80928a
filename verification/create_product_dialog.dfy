/**
 * The product creation dialog of components/create-product-dialog.tsx: a
 * form of seven text fields, an error line, a loading flag, and the submit
 * handler that checks the fields in a fixed order and, once they pass, hands
 * a trimmed product to the page and closes.
 *
 * `Number.parseFloat` is the parameter `parseFloat` (None for NaN); prices
 * are reals. The submit handler waits half a second between the checks and
 * the hand-over; `BeginSubmit` and `FinishSubmit` are the two sides of that
 * wait. The page's `onOpenChange(false)` is the field `open` turning false,
 * and every product handed to `onCreateProduct` is appended to `created`.
 */
module CreateProductDialog {
  import opened Common
  import opened JsText

  const RequiredFieldsMessage: string := "Todos los campos obligatorios deben ser completados"
  const PriceMessage: string := "El precio debe ser un número válido mayor a 0"
  const StockMessage: string := "Las existencias deben ser un número válido mayor o igual a 0"
  const MinStockMessage: string := "El stock mínimo debe ser un número válido mayor o igual a 0"
  const DefaultImage: string := "/placeholder.svg?key=new-product"

  datatype FormData = FormData(
    name: string,
    supplier: string,
    price: string,
    stock: string,
    minStock: string,
    image: string,
    characteristics: string)

  datatype Field = Name | Supplier | Price | Stock | MinStock | Image | Characteristics

  /** What the dialog hands to `onCreateProduct`. */
  datatype NewProduct = NewProduct(
    name: string,
    supplier: string,
    price: real,
    stock: int,
    minStock: int,
    image: string,
    characteristics: string)

  const EmptyForm: FormData := FormData("", "", "", "", "", "", "")

  function GetField(form: FormData, f: Field): string
  {
    match f
    case Name => form.name
    case Supplier => form.supplier
    case Price => form.price
    case Stock => form.stock
    case MinStock => form.minStock
    case Image => form.image
    case Characteristics => form.characteristics
  }

  /** `{ ...prev, [field]: value }`: the named field takes the value, the others stay. */
  function SetField(form: FormData, f: Field, value: string): (r: FormData)
    ensures GetField(r, f) == value
    ensures forall g :: g != f ==> GetField(r, g) == GetField(form, g)
  {
    match f
    case Name => form.(name := value)
    case Supplier => form.(supplier := value)
    case Price => form.(price := value)
    case Stock => form.(stock := value)
    case MinStock => form.(minStock := value)
    case Image => form.(image := value)
    case Characteristics => form.(characteristics := value)
  }

  predicate Blank(s: string)
  {
    Trim(s) == []
  }

  /** The checks of `handleSubmit`, in order; the first that fails names the error. */
  function Validate(form: FormData, parseFloat: string -> Option<real>): Result<NewProduct, string>
  {
    if Blank(form.name) || Blank(form.supplier) || Blank(form.characteristics) then
      Failure(RequiredFieldsMessage)
    else
      var price := parseFloat(form.price);
      var stock := ParseInt(form.stock);
      var minStock := ParseInt(form.minStock);
      if price.None? || price.value <= 0.0 then Failure(PriceMessage)
      else if stock.None? || stock.value < 0 then Failure(StockMessage)
      else if minStock.None? || minStock.value < 0 then Failure(MinStockMessage)
      else
        Ok(NewProduct(
          Trim(form.name),
          Trim(form.supplier),
          price.value,
          stock.value,
          minStock.value,
          if form.image != "" then form.image else DefaultImage,
          Trim(form.characteristics)))
  }

  class Dialog {
    var formData: FormData
    var error: string
    var isLoading: bool
    /** The page's `open` flag, which the dialog turns off through `onOpenChange(false)`. */
    var open: bool
    /** The product checked by a submit that is waiting out its delay. */
    var pending: Option<NewProduct>
    /** Every product handed to `onCreateProduct`, oldest first. */
    var created: seq<NewProduct>

    predicate Valid()
      reads this
    {
      pending.Some? <==> isLoading
    }

    constructor (open: bool)
      ensures formData == EmptyForm && error == "" && !isLoading && this.open == open
      ensures pending == None && created == []
      ensures Valid()
    {
      formData := EmptyForm;
      error := "";
      isLoading := false;
      this.open := open;
      pending := None;
      created := [];
    }

    /** `handleInputChange(field, value)`: changes the one field and clears the error. */
    method HandleInputChange(f: Field, value: string)
      modifies this`formData, this`error
      ensures formData == SetField(old(formData), f, value)
      ensures error == ""
    {
      formData := SetField(formData, f, value);
      error := "";
    }

    /** `resetForm()` */
    method ResetForm()
      modifies this`formData, this`error
      ensures formData == EmptyForm && error == ""
    {
      formData := FormData("", "", "", "", "", "", "");
      error := "";
    }

    /**
     * `handleSubmit` up to its delay: a failed check sets the error and ends
     * loading with the form kept; passing every check leaves the dialog
     * loading with the product waiting to be handed over.
     */
    method BeginSubmit(parseFloat: string -> Option<real>)
      requires Valid() && !isLoading
      modifies this`isLoading, this`error, this`pending
      ensures Valid()
      ensures match Validate(formData, parseFloat)
              case Failure(m) => error == m && !isLoading
              case Ok(p) => error == "" && isLoading && pending == Some(p)
    {
      isLoading := true;
      error := "";
      var checked := Validate(formData, parseFloat);
      match checked
      case Failure(m) =>
        error := m;
        isLoading := false;
      case Ok(p) =>
        pending := Some(p);
    }

    /** `handleSubmit` after its delay: hands the product over, resets the form and closes. */
    method FinishSubmit()
      requires Valid() && isLoading
      modifies this
      ensures Valid() && !isLoading
      ensures created == old(created) + [old(pending).value]
      ensures formData == EmptyForm && error == "" && !open
    {
      created := created + [pending.value];
      ResetForm();
      open := false;
      pending := None;
      isLoading := false;
    }

    /** `handleClose()`: ignored while loading; otherwise resets the form and closes. */
    method HandleClose()
      modifies this`formData, this`error, this`open
      ensures old(isLoading) ==> formData == old(formData) && error == old(error) && open == old(open)
      ensures !old(isLoading) ==> formData == EmptyForm && error == "" && !open
    {
      if !isLoading {
        ResetForm();
        open := false;
      }
    }
  }

  /**
   * Each error message is shown exactly when its check is the first to fail,
   * and a product comes out exactly when every check passes.
   */
  lemma FirstFailingCheckWins(form: FormData, parseFloat: string -> Option<real>)
    ensures var required := Blank(form.name) || Blank(form.supplier) || Blank(form.characteristics);
            var price := parseFloat(form.price);
            var badPrice := price.None? || price.value <= 0.0;
            var stock := ParseInt(form.stock);
            var badStock := stock.None? || stock.value < 0;
            var minStock := ParseInt(form.minStock);
            var badMinStock := minStock.None? || minStock.value < 0;
            (Validate(form, parseFloat) == Failure(RequiredFieldsMessage) <==> required)
            && (Validate(form, parseFloat) == Failure(PriceMessage) <==> !required && badPrice)
            && (Validate(form, parseFloat) == Failure(StockMessage) <==> !required && !badPrice && badStock)
            && (Validate(form, parseFloat) == Failure(MinStockMessage) <==>
                  !required && !badPrice && !badStock && badMinStock)
            && (Validate(form, parseFloat).Ok? <==> !required && !badPrice && !badStock && !badMinStock)
  {
    assert |RequiredFieldsMessage| == 51 && |PriceMessage| == 45;
    assert |StockMessage| == 60 && |MinStockMessage| == 59;
    var v := Validate(form, parseFloat);
    var price, stock, minStock := parseFloat(form.price), ParseInt(form.stock), ParseInt(form.minStock);
    if Blank(form.name) || Blank(form.supplier) || Blank(form.characteristics) {
      assert v == Failure(RequiredFieldsMessage);
    } else if price.None? || price.value <= 0.0 {
      assert v == Failure(PriceMessage);
    } else if stock.None? || stock.value < 0 {
      assert v == Failure(StockMessage);
    } else if minStock.None? || minStock.value < 0 {
      assert v == Failure(MinStockMessage);
    } else {
      assert v.Ok?;
    }
  }

  /**
   * An accepted product has its three text fields trimmed and not empty, a
   * positive price, non-negative stock and threshold read by `parseInt`, and
   * an image: the one typed in, or the default.
   */
  lemma AcceptedProductIsClean(form: FormData, parseFloat: string -> Option<real>)
    requires Validate(form, parseFloat).Ok?
    ensures var p := Validate(form, parseFloat).value;
            p.name == Trim(form.name) && p.name != [] && Trim(p.name) == p.name
            && p.supplier == Trim(form.supplier) && p.supplier != []
            && p.characteristics == Trim(form.characteristics) && p.characteristics != []
            && p.price > 0.0 && parseFloat(form.price) == Some(p.price)
            && p.stock >= 0 && ParseInt(form.stock) == Some(p.stock)
            && p.minStock >= 0 && ParseInt(form.minStock) == Some(p.minStock)
            && p.image != [] && (form.image != [] ==> p.image == form.image)
  {
    AcceptedValue(form, parseFloat);
    TrimIdempotent(form.name);
  }

  /** What an accepted form turns into, field by field. */
  lemma AcceptedValue(form: FormData, parseFloat: string -> Option<real>)
    requires Validate(form, parseFloat).Ok?
    ensures !Blank(form.name) && !Blank(form.supplier) && !Blank(form.characteristics)
    ensures parseFloat(form.price).Some? && ParseInt(form.stock).Some? && ParseInt(form.minStock).Some?
    ensures Validate(form, parseFloat).value == NewProduct(Trim(form.name), Trim(form.supplier),
              parseFloat(form.price).value, ParseInt(form.stock).value, ParseInt(form.minStock).value,
              if form.image != "" then form.image else DefaultImage, Trim(form.characteristics))
  {
    FirstFailingCheckWins(form, parseFloat);
  }

  /** Trimming twice is trimming once. */
  lemma TrimIdempotent(s: string)
    ensures Trim(Trim(s)) == Trim(s)
  {
    var t := Trim(s);
    TrimBounds(s);
    if t != [] {
      assert TrimStart(t) == t;
      assert TrimEnd(t) == t;
    }
  }

  /** The form a user would type for a product. */
  function FormFor(p: NewProduct, priceText: string): FormData
  {
    FormData(p.name, p.supplier, priceText, IntToString(p.stock), IntToString(p.minStock), p.image, p.characteristics)
  }

  /**
   * Typing a valid product into the form, with a price text that
   * `parseFloat` reads as its price, gives back exactly that product.
   */
  lemma ValidateRoundTrip(p: NewProduct, priceText: string, parseFloat: string -> Option<real>)
    requires p.name != [] && Trim(p.name) == p.name
    requires p.supplier != [] && Trim(p.supplier) == p.supplier
    requires p.characteristics != [] && Trim(p.characteristics) == p.characteristics
    requires parseFloat(priceText) == Some(p.price) && p.price > 0.0
    requires p.stock >= 0 && p.minStock >= 0 && p.image != []
    ensures Validate(FormFor(p, priceText), parseFloat) == Ok(p)
  {
    var form := FormFor(p, priceText);
    ParseIntOfIntToString(p.stock);
    ParseIntOfIntToString(p.minStock);
    AllChecksPass(form, parseFloat, p.price, p.stock, p.minStock);
  }

  /** A form that passes every check is accepted, with the values read from it. */
  lemma AllChecksPass(form: FormData, parseFloat: string -> Option<real>, price: real, stock: int, minStock: int)
    requires !Blank(form.name) && !Blank(form.supplier) && !Blank(form.characteristics)
    requires parseFloat(form.price) == Some(price) && price > 0.0
    requires ParseInt(form.stock) == Some(stock) && stock >= 0
    requires ParseInt(form.minStock) == Some(minStock) && minStock >= 0
    ensures Validate(form, parseFloat) == Ok(NewProduct(Trim(form.name), Trim(form.supplier), price,
              stock, minStock, if form.image != "" then form.image else DefaultImage,
              Trim(form.characteristics)))
  {
    FirstFailingCheckWins(form, parseFloat);
    AcceptedValue(form, parseFloat);
  }
}
