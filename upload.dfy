/** Image upload rules shared by the product modal
    (src/components/product/components/ModalCreation/index.tsx) and the shop
    page (src/pages/index.tsx), which carry identical copies of them: the
    MIME-type allow-list, the upload decision and the multipart body. */
module ImageUpload {
  import opened Js

  /** A picked file: its name and its MIME `type`. */
  datatype File = File(name: string, mimeType: string)

  /** `allowFormatData`. */
  const AllowFormatData: seq<string> := ["jpg", "jpeg", "png", "svg"]

  /** `defaultErrorFormat`. */
  const DefaultErrorFormat := "Unsupported file format, only .jpg, .jpeg, .png or svg are supported"

  /** Some entry of `formats` is a substring of `mimeType`. */
  function AllowedBy(mimeType: string, formats: seq<string>): (b: bool)
    ensures b <==> exists f :: f in formats && Includes(mimeType, f)
  {
    var b := exists i :: 0 <= i < |formats| && Includes(mimeType, formats[i]);
    assert b <==> exists f :: f in formats && Includes(mimeType, f) by {
      if b {
        var i :| 0 <= i < |formats| && Includes(mimeType, formats[i]);
        assert formats[i] in formats;
      }
    }
    b
  }

  /** `validateFormat`'s verdict: one of the four extensions occurs in the
      MIME type. */
  function IsAllowedFormat(mimeType: string): (b: bool)
    ensures b <==> (Includes(mimeType, "jpg") || Includes(mimeType, "jpeg")
                    || Includes(mimeType, "png") || Includes(mimeType, "svg"))
  {
    AllowedBy(mimeType, AllowFormatData)
  }

  /** `validateFormat(fileData)`: a `forEach` over the allow-list that only
      ever raises the `isAllow` flag. */
  method ValidateFormat(fileData: File) returns (isAllow: bool)
    ensures isAllow <==> IsAllowedFormat(fileData.mimeType)
  {
    var mimeType := fileData.mimeType;
    isAllow := false;
    for i := 0 to |AllowFormatData|
      invariant isAllow <==> exists j :: 0 <= j < i && Includes(mimeType, AllowFormatData[j])
    {
      if Includes(mimeType, AllowFormatData[i]) {
        isAllow := true;
      }
    }
  }

  lemma AllowedByImplies(mimeType: string, xs: seq<string>, ys: seq<string>)
    requires multiset(xs) == multiset(ys)
    requires AllowedBy(mimeType, xs)
    ensures AllowedBy(mimeType, ys)
  {
    var i :| 0 <= i < |xs| && Includes(mimeType, xs[i]);
    assert xs[i] in multiset(ys);
    var j :| 0 <= j < |ys| && ys[j] == xs[i];
  }

  /** The verdict does not depend on the order of the allow-list. */
  lemma AllowedOrderFree(mimeType: string, xs: seq<string>, ys: seq<string>)
    requires multiset(xs) == multiset(ys)
    ensures AllowedBy(mimeType, xs) <==> AllowedBy(mimeType, ys)
  {
    if AllowedBy(mimeType, xs) {
      AllowedByImplies(mimeType, xs, ys);
    }
    if AllowedBy(mimeType, ys) {
      AllowedByImplies(mimeType, ys, xs);
    }
  }

  /** A GIF is refused. */
  lemma GifRejected()
    ensures !IsAllowedFormat("image/gif")
  {
    var gif := "image/gif";
    forall i | 0 <= i < |AllowFormatData| ensures !Includes(gif, AllowFormatData[i]) {
      var format := AllowFormatData[i];
      assert format[0] in "jps";
      assert format[0] !in gif;
      MissingCharExcludes(gif, format, 0);
    }
  }

  /** A MIME type holding an allow-list entry at `at` passes. */
  lemma AcceptedAt(mimeType: string, k: nat, at: nat)
    requires k < |AllowFormatData| && OccursAt(mimeType, AllowFormatData[k], at)
    ensures IsAllowedFormat(mimeType)
  {
    IncludesIff(mimeType, AllowFormatData[k]);
  }

  /** PNG, JPEG and SVG MIME types pass. */
  lemma CommonImagesAccepted()
    ensures IsAllowedFormat("image/png")
    ensures IsAllowedFormat("image/jpeg")
    ensures IsAllowedFormat("image/svg+xml")
  {
    assert "image/png"[6..9] == AllowFormatData[2];
    AcceptedAt("image/png", 2, 6);
    assert "image/jpeg"[6..10] == AllowFormatData[1];
    AcceptedAt("image/jpeg", 1, 6);
    assert "image/svg+xml"[6..9] == AllowFormatData[3];
    AcceptedAt("image/svg+xml", 3, 6);
  }

  /** What an upload `change` event leads to. */
  datatype UploadStep = Ignore | Reject | Accept

  /** An empty pick is ignored; a refused type is rejected only while the
      input element is attached to its ref; everything else is taken. */
  function UploadDecision(files: seq<File>, refAttached: bool): (d: UploadStep)
    ensures d == Ignore <==> files == []
    ensures d == Reject <==> files != [] && refAttached && !IsAllowedFormat(files[0].mimeType)
    ensures d == Accept <==> files != [] && (IsAllowedFormat(files[0].mimeType) || !refAttached)
  {
    if files == [] then Ignore
    else if !IsAllowedFormat(files[0].mimeType) && refAttached then Reject
    else Accept
  }

  /** The JSON `data` part: `{name, address}`. */
  datatype BodyData = BodyData(name: string, address: string)

  /** The multipart request: an optional `files.photo` part and `data`. */
  datatype RequestForm = RequestForm(photo: Option<File>, data: BodyData)

  /** The body `handleSubmit` assembles from the stored `file` state and the
      form's `name` and `address` entries. */
  function BuildRequestForm(file: seq<File>, name: Option<string>, address: Option<string>): (r: RequestForm)
    ensures r.photo.Some? <==> file != []
    ensures file != [] ==> r.photo.value == file[0]
    ensures r.data.name == OrEmpty(name) && r.data.address == OrEmpty(address)
  {
    RequestForm(if file != [] then Some(file[0]) else None, BodyData(OrEmpty(name), OrEmpty(address)))
  }
}
