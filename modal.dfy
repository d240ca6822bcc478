/** The create/edit product dialog of
    src/components/product/components/ModalCreation/index.tsx. */
module ModalCreation {
  import opened Js
  import opened SnackbarContext
  import opened ImageUpload
  import opened ProductTypes

  /** The named inputs of the product form. */
  datatype ProductForm = ProductForm(
    name: string, price: string, basePrice: string, unit: string, stock: string, productId: string)

  const ProductFormFields: set<string> := {"name", "price", "basePrice", "unit", "stock", "productId"}

  /** `new FormData(form).get(key)`: `null` for a name the form lacks. */
  function FormGet(f: ProductForm, key: string): (v: Option<string>)
    ensures v.None? <==> key !in ProductFormFields
  {
    match key
    case "name" => Some(f.name)
    case "price" => Some(f.price)
    case "basePrice" => Some(f.basePrice)
    case "unit" => Some(f.unit)
    case "stock" => Some(f.stock)
    case "productId" => Some(f.productId)
    case _ => None
  }

  /** The literal message of the modal's success snackbar. */
  const SubmitSucceeded := "successUpdateShop"

  /** `isEdit`: a row was passed in. */
  predicate IsEdit(data: Option<Datum>) {
    data.Some?
  }

  /** `titleText`. */
  function TitleText(data: Option<Datum>): (t: string)
    ensures IsEdit(data) ==> t == "Edit Barang"
    ensures !IsEdit(data) ==> t == "Tambah Barang"
  {
    if IsEdit(data) then "Edit Barang" else "Tambah Barang"
  }

  /** The submit body: the product form has no `address` input, so that
      part is always empty, and `name` is the typed name. */
  lemma SubmitBodyShape(file: seq<File>, f: ProductForm)
    ensures var r := BuildRequestForm(file, FormGet(f, "name"), FormGet(f, "address"));
      r.data == BodyData(f.name, "") && (r.photo.Some? <==> file != [])
  {
  }

  /** `ModalCreationProduct`'s own state. */
  class ModalCreationProduct {
    const data: Option<Datum>
    const snackbar: Snackbar
    /** `refInput.current` is set. */
    const refAttached: bool
    /** The file input's `value`. */
    var inputValue: string
    var hasChange: bool
    var file: seq<File>
    var image: string

    constructor (data: Option<Datum>, snackbar: Snackbar, refAttached: bool, inputValue: string)
      ensures this.data == data && this.snackbar == snackbar && this.refAttached == refAttached
      ensures this.inputValue == inputValue
      ensures !hasChange && file == [] && image == ""
    {
      this.data := data;
      this.snackbar := snackbar;
      this.refAttached := refAttached;
      this.inputValue := inputValue;
      hasChange := false;
      file := [];
      image := "";
    }

    /** The submit button's `disabled`. */
    function SubmitDisabled(): (disabled: bool)
      reads this
      ensures disabled <==> !hasChange
    {
      !hasChange
    }

    /** The form's `onChange`: any edit marks it dirty. */
    method FormChange()
      modifies this
      ensures hasChange
      ensures inputValue == old(inputValue) && file == old(file) && image == old(image)
    {
      hasChange := true;
    }

    /** `handleChangeUpload`, given the picked files and how reading the
        first one as a data URL ended (`None`: the read failed). */
    method HandleChangeUpload(files: seq<File>, read: Option<string>)
      modifies this, snackbar
      ensures UploadDecision(files, refAttached) == Ignore ==>
        inputValue == old(inputValue) && hasChange == old(hasChange) && file == old(file)
        && image == old(image) && snackbar.state == old(snackbar.state)
      ensures UploadDecision(files, refAttached) == Reject ==>
        inputValue == "" && hasChange == old(hasChange) && file == old(file) && image == old(image)
        && snackbar.state == SnackbarState(true, DefaultErrorFormat, Error)
      ensures UploadDecision(files, refAttached) == Accept ==>
        inputValue == old(inputValue) && hasChange && file == files
        && image == (if read.Some? then read.value else old(image))
        && snackbar.state == old(snackbar.state)
    {
      var fileData := files;
      if |fileData| == 0 {
        return;
      }
      var isValid := ValidateFormat(fileData[0]);
      if !isValid && refAttached {
        inputValue := "";
        snackbar.SetShowSnackbar(SetShowSnackbarArg(true, Some(DefaultErrorFormat), Some(Error)));
        return;
      }
      file := fileData;
      if read.Some? {
        image := read.value;
      }
      hasChange := true;
    }

    /** A change event on the file input: `handleChangeUpload` runs, then the
        event bubbles to the enclosing form, whose `onChange` marks it dirty
        whatever the handler decided. */
    method UploadInputChange(files: seq<File>, read: Option<string>)
      modifies this, snackbar
      ensures hasChange
      ensures UploadDecision(files, refAttached) == Ignore ==>
        inputValue == old(inputValue) && file == old(file)
        && image == old(image) && snackbar.state == old(snackbar.state)
      ensures UploadDecision(files, refAttached) == Reject ==>
        inputValue == "" && file == old(file) && image == old(image)
        && snackbar.state == SnackbarState(true, DefaultErrorFormat, Error)
      ensures UploadDecision(files, refAttached) == Accept ==>
        inputValue == old(inputValue) && file == files
        && image == (if read.Some? then read.value else old(image))
        && snackbar.state == old(snackbar.state)
    {
      HandleChangeUpload(files, read);
      FormChange();
    }

    /** `handleSubmit`: builds the body (no request is sent), reports
        success and clears the dirty flag. */
    method HandleSubmit(form: ProductForm) returns (requestForm: RequestForm)
      modifies this, snackbar
      ensures requestForm == BuildRequestForm(file, FormGet(form, "name"), FormGet(form, "address"))
      ensures requestForm.data.address == ""
      ensures !hasChange
      ensures snackbar.state == SnackbarState(true, SubmitSucceeded, Success)
      ensures inputValue == old(inputValue) && file == old(file) && image == old(image)
    {
      var photo: Option<File> := None;
      if file != [] {
        photo := Some(file[0]);
      }
      var bodyData := BodyData(OrEmpty(FormGet(form, "name")), OrEmpty(FormGet(form, "address")));
      requestForm := RequestForm(photo, bodyData);
      snackbar.SetShowSnackbar(SetShowSnackbarArg(true, Some(SubmitSucceeded), Some(Success)));
      hasChange := false;
    }
  }

  /** Until a change event reaches the form (a typed field or any pick on
      its file input), submitting is impossible. */
  method UntouchedFormCannotSubmit(data: Option<Datum>, snackbar: Snackbar) returns (disabled: bool)
    ensures disabled
  {
    var modal := new ModalCreationProduct(data, snackbar, true, "");
    disabled := modal.SubmitDisabled();
  }

  /** Picking a refused file in a fresh dialog still enables "Simpan": the
      handler clears the input and shows the error, and the bubbled change
      event marks the form dirty. */
  method RefusedPickEnablesSubmit(data: Option<Datum>) returns (cleared: bool, disabled: bool)
    ensures cleared && !disabled
  {
    var snackbar := new Snackbar();
    var modal := new ModalCreationProduct(data, snackbar, true, "anim.gif");
    GifRejected();
    modal.UploadInputChange([File("anim.gif", "image/gif")], None);
    cleared := modal.inputValue == "";
    disabled := modal.SubmitDisabled();
  }
}
