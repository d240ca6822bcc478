/** The shop account page of src/pages/index.tsx: the photo upload, the
    shop form and the page wrapper that picks the user's shop. */
module HomePage {
  import opened Js
  import opened Http
  import opened SnackbarContext
  import opened ImageUpload
  import opened UseAxios
  import opened ImageUrl

  /** A shop, cut down to the fields the page reads: `id`,
      `attributes.name`, `attributes.address` and the photo's name and URL. */
  datatype ShopDetail = ShopDetail(id: int, name: string, address: string, photoName: string, photoUrl: string)

  /** `defaultShop`. */
  const DefaultShop := ShopDetail(0, "", "", "", "")

  /** `successUpdateShop`. */
  const SuccessUpdateShop := "Shop account updated successfully"

  /** The shop form's two inputs. */
  datatype ShopForm = ShopForm(name: string, address: string)

  /** `new FormData(form).get(key)` on the shop form. */
  function ShopFormGet(f: ShopForm, key: string): (v: Option<string>)
    ensures v.None? <==> key != "name" && key != "address"
    ensures key == "name" ==> v == Some(f.name)
    ensures key == "address" ==> v == Some(f.address)
  {
    if key == "name" then Some(f.name) else if key == "address" then Some(f.address) else None
  }

  /** A `PUT ${SHOP_API}/${id}` the page sent, with its multipart body. */
  datatype ShopPut = ShopPut(shopId: int, body: RequestForm)

  /** The avatar's `src`: the fresh preview if there is one, else the
      stored photo through `getImage`. */
  function AvatarSrc(image: string, baseUrl: string, photoUrl: string): (src: string)
    ensures image != "" ==> src == image
    ensures image == "" && Includes(photoUrl, "http") ==> src == photoUrl
    ensures image == "" && !Includes(photoUrl, "http") ==> src == baseUrl + photoUrl
  {
    if image != "" then image else GetImage(baseUrl, photoUrl)
  }

  /** Without a preview the avatar always points at the stored photo. */
  lemma AvatarShowsStoredPhoto(baseUrl: string, photoUrl: string)
    ensures var src := AvatarSrc("", baseUrl, photoUrl);
      |photoUrl| <= |src| && src[|src| - |photoUrl|..] == photoUrl
  {
    GetImageEndsWithUrl(baseUrl, photoUrl);
  }

  /** `Home`'s state. */
  class Home {
    const data: ShopDetail
    const snackbar: Snackbar
    const axios: Axios
    /** The `detailUser.jwt` of the render whose handlers run. */
    const jwt: Option<string>
    /** `refInput.current` is set. */
    const refAttached: bool
    /** The file input's `value`. */
    var inputValue: string
    var loadingUpdatePhoto: bool
    var loadingUpdateShop: bool
    var hasChange: bool
    var file: seq<File>
    var image: string
    /** The PUT requests sent so far, oldest first. */
    var puts: seq<ShopPut>

    constructor (data: ShopDetail, snackbar: Snackbar, axios: Axios, jwt: Option<string>,
                 refAttached: bool, inputValue: string)
      ensures this.data == data && this.snackbar == snackbar && this.axios == axios
      ensures this.jwt == jwt && this.refAttached == refAttached && this.inputValue == inputValue
      ensures !loadingUpdatePhoto && !loadingUpdateShop && !hasChange
      ensures file == [] && image == "" && puts == []
    {
      this.data := data;
      this.snackbar := snackbar;
      this.axios := axios;
      this.jwt := jwt;
      this.refAttached := refAttached;
      this.inputValue := inputValue;
      loadingUpdatePhoto := false;
      loadingUpdateShop := false;
      hasChange := false;
      file := [];
      image := "";
      puts := [];
    }

    /** The Save button's `disabled`. */
    function SaveDisabled(): (disabled: bool)
      reads this
      ensures disabled <==> loadingUpdateShop || !hasChange
    {
      loadingUpdateShop || !hasChange
    }

    /** The file input's `disabled`. */
    function UploadDisabled(): (disabled: bool)
      reads this
      ensures disabled <==> loadingUpdatePhoto
    {
      loadingUpdatePhoto
    }

    /** The form's `onChange`. */
    method FormChange()
      modifies this
      ensures hasChange
      ensures loadingUpdateShop == old(loadingUpdateShop) && loadingUpdatePhoto == old(loadingUpdatePhoto)
      ensures file == old(file) && image == old(image) && puts == old(puts)
      ensures inputValue == old(inputValue)
    {
      hasChange := true;
    }

    /** `handleChange` as written, given the picked files and how reading the
        first one ended (`None`: the read failed). The loading flag is
        raised first and lowered only on the accepted path. */
    method HandleChange(files: seq<File>, read: Option<string>)
      modifies this, snackbar
      ensures loadingUpdatePhoto <==> UploadDecision(files, refAttached) != Accept
      ensures loadingUpdateShop == old(loadingUpdateShop) && puts == old(puts)
      ensures UploadDecision(files, refAttached) == Ignore ==>
        inputValue == old(inputValue) && hasChange == old(hasChange) && file == old(file)
        && image == old(image) && snackbar.state == old(snackbar.state)
      ensures UploadDecision(files, refAttached) == Reject ==>
        inputValue == "" && hasChange == old(hasChange) && file == old(file) && image == old(image)
        && snackbar.state == SnackbarState(true, DefaultErrorFormat, Error)
      ensures UploadDecision(files, refAttached) == Accept ==>
        inputValue == old(inputValue) && hasChange && file == files
        && image == (if read.Some? then read.value else old(image))
        && snackbar.state == old(snackbar.state)
    {
      loadingUpdatePhoto := true;
      var fileData := files;
      if |fileData| == 0 {
        return;
      }
      var isValid := ValidateFormat(fileData[0]);
      if !isValid && refAttached {
        inputValue := "";
        snackbar.SetShowSnackbar(SetShowSnackbarArg(true, Some(DefaultErrorFormat), Some(Error)));
        return;
      }
      file := fileData;
      if read.Some? {
        image := read.value;
      }
      loadingUpdatePhoto := false;
      hasChange := true;
    }

    /** `handleChange` with the loading flag lowered on every path, so the
        input stays usable after a refused or cancelled pick. */
    method HandleChangeFixed(files: seq<File>, read: Option<string>)
      modifies this, snackbar
      ensures !loadingUpdatePhoto
      ensures loadingUpdateShop == old(loadingUpdateShop) && puts == old(puts)
      ensures UploadDecision(files, refAttached) == Ignore ==>
        inputValue == old(inputValue) && hasChange == old(hasChange) && file == old(file)
        && image == old(image) && snackbar.state == old(snackbar.state)
      ensures UploadDecision(files, refAttached) == Reject ==>
        inputValue == "" && hasChange == old(hasChange) && file == old(file) && image == old(image)
        && snackbar.state == SnackbarState(true, DefaultErrorFormat, Error)
      ensures UploadDecision(files, refAttached) == Accept ==>
        inputValue == old(inputValue) && hasChange && file == files
        && image == (if read.Some? then read.value else old(image))
        && snackbar.state == old(snackbar.state)
    {
      loadingUpdatePhoto := true;
      var fileData := files;
      if |fileData| == 0 {
        loadingUpdatePhoto := false;
        return;
      }
      var isValid := ValidateFormat(fileData[0]);
      if !isValid && refAttached {
        inputValue := "";
        snackbar.SetShowSnackbar(SetShowSnackbarArg(true, Some(DefaultErrorFormat), Some(Error)));
        loadingUpdatePhoto := false;
        return;
      }
      file := fileData;
      if read.Some? {
        image := read.value;
      }
      loadingUpdatePhoto := false;
      hasChange := true;
    }

    /** `handleSubmit`, given how the PUT ended: sends the shop form and the
        chosen photo, reports the outcome and lowers the loading flag. */
    method HandleSubmit(form: ShopForm, put: Outcome<()>) returns (requestForm: RequestForm)
      modifies this, snackbar, axios
      ensures requestForm == BuildRequestForm(file, Some(form.name), Some(form.address))
      ensures puts == old(puts) + [ShopPut(data.id, requestForm)]
      ensures axios.interceptors == old(axios.interceptors) + [RequestInterceptor(jwt)]
      ensures !loadingUpdateShop
      ensures put.Ok? ==> snackbar.state == SnackbarState(true, SuccessUpdateShop, Success) && !hasChange
      ensures put.Err? ==> snackbar.state == Reported(old(snackbar.state), put.error) && hasChange == old(hasChange)
      ensures put.Ok? ==> SaveDisabled()
      ensures put.Err? ==> (SaveDisabled() <==> !old(hasChange))
      ensures loadingUpdatePhoto == old(loadingUpdatePhoto) && file == old(file) && image == old(image)
      ensures inputValue == old(inputValue)
    {
      loadingUpdateShop := true;
      requestForm := BuildRequestForm(file, ShopFormGet(form, "name"), ShopFormGet(form, "address"));
      var client := GetAxios(axios, jwt);
      puts := puts + [ShopPut(data.id, requestForm)];
      match put {
        case Ok(_) =>
          snackbar.SetShowSnackbar(SetShowSnackbarArg(true, Some(SuccessUpdateShop), Some(Success)));
          hasChange := false;
        case Err(err) =>
          snackbar.Report(err);
      }
      loadingUpdateShop := false;
    }
  }

  /** A refused pick, and a cancelled one, leave the upload input disabled
      with the page's own `handleChange`. */
  method RefusedPickLocksUpload(data: ShopDetail) returns (afterRefused: bool, afterCancelled: bool)
    ensures afterRefused && afterCancelled
  {
    var snackbar := new Snackbar();
    var ax := new Axios();
    var home := new Home(data, snackbar, ax, None, true, "C:\\fakepath\\anim.gif");
    GifRejected();
    home.HandleChange([File("anim.gif", "image/gif")], None);
    afterRefused := home.UploadDisabled();
    var other := new Home(data, snackbar, ax, None, true, "");
    other.HandleChange([], None);
    afterCancelled := other.UploadDisabled();
  }

  /** With the lowered flag the same picks leave the input usable. */
  method RefusedPickKeepsUploadFixed(data: ShopDetail) returns (afterRefused: bool, afterCancelled: bool)
    ensures !afterRefused && !afterCancelled
  {
    var snackbar := new Snackbar();
    var ax := new Axios();
    var home := new Home(data, snackbar, ax, None, true, "C:\\fakepath\\anim.gif");
    home.HandleChangeFixed([File("anim.gif", "image/gif")], None);
    afterRefused := home.UploadDisabled();
    var other := new Home(data, snackbar, ax, None, true, "");
    other.HandleChangeFixed([], None);
    afterCancelled := other.UploadDisabled();
  }

  /** The body of the cookie-endpoint reply `WrapperHome` reads. */
  datatype JwtReply = JwtReply(userId: Option<string>, jwt: Option<string>)

  /** The shops query: filtered on the user id, with the bearer header. */
  datatype ShopQuery = ShopQuery(userId: Option<string>, authorization: string)

  /** `resGetDetailUser.data?.data?.[0] || defaultShop`; `None` stands for
      a body without a `data` list. */
  function SelectShop(shops: Option<seq<ShopDetail>>): (s: ShopDetail)
    ensures shops.Some? && shops.value != [] ==> s == shops.value[0]
    ensures shops.None? || shops.value == [] ==> s == DefaultShop
  {
    if shops.Some? && |shops.value| > 0 then shops.value[0] else DefaultShop
  }

  /** The shops request `handleShopDetail` sends, if the cookie request
      succeeded. */
  function ShopRequest(jwtFetch: Outcome<JwtReply>): (q: Option<ShopQuery>)
    ensures q.Some? <==> jwtFetch.Ok?
    ensures jwtFetch.Ok? ==>
      q.value == ShopQuery(jwtFetch.body.userId, "Bearer " + Template(jwtFetch.body.jwt))
  {
    if jwtFetch.Ok? then Some(ShopQuery(jwtFetch.body.userId, "Bearer " + Template(jwtFetch.body.jwt)))
    else None
  }

  /** The shop `handleShopDetail` stores: any failure gives `defaultShop`. */
  function ShopShown(jwtFetch: Outcome<JwtReply>, shopsFetch: Outcome<Option<seq<ShopDetail>>>): (s: ShopDetail)
    ensures jwtFetch.Ok? && shopsFetch.Ok? ==> s == SelectShop(shopsFetch.body)
    ensures jwtFetch.Err? || shopsFetch.Err? ==> s == DefaultShop
  {
    match (jwtFetch, shopsFetch)
    case (Ok(_), Ok(shops)) => SelectShop(shops)
    case _ => DefaultShop
  }

  /** The shown shop is one the CMS listed for the user, or `defaultShop`. */
  lemma ShopShownIsListedOrDefault(jwtFetch: Outcome<JwtReply>, shopsFetch: Outcome<Option<seq<ShopDetail>>>)
    ensures var s := ShopShown(jwtFetch, shopsFetch);
      s == DefaultShop || (shopsFetch.Ok? && shopsFetch.body.Some? && s in shopsFetch.body.value)
  {
  }

  /** `WrapperHome`: the page shows nothing until the load finished. */
  class WrapperHome {
    var shopDetail: Option<ShopDetail>
    var isLoading: bool

    constructor ()
      ensures shopDetail.None? && isLoading
    {
      shopDetail := None;
      isLoading := true;
    }

    /** What is rendered: `None` for `null`, else `Home` with that shop. */
    function Page(): (p: Option<ShopDetail>)
      reads this
      ensures p.Some? <==> !isLoading && shopDetail.Some?
      ensures p.Some? ==> p == shopDetail
    {
      if isLoading || shopDetail.None? then None else shopDetail
    }

    /** The mount effect `handleShopDetail`. */
    method HandleShopDetail(jwtFetch: Outcome<JwtReply>, shopsFetch: Outcome<Option<seq<ShopDetail>>>)
      returns (query: Option<ShopQuery>)
      modifies this
      ensures query == ShopRequest(jwtFetch)
      ensures shopDetail == Some(ShopShown(jwtFetch, shopsFetch)) && !isLoading
    {
      isLoading := true;
      query := ShopRequest(jwtFetch);
      if jwtFetch.Err? {
        shopDetail := Some(DefaultShop);
      } else {
        match shopsFetch
        case Ok(shops) => shopDetail := Some(SelectShop(shops));
        case Err(_) => shopDetail := Some(DefaultShop);
      }
      isLoading := false;
    }
  }

  /** Once mounted, the page always renders a shop. */
  method MountedPageShowsShop(jwtFetch: Outcome<JwtReply>, shopsFetch: Outcome<Option<seq<ShopDetail>>>)
    returns (page: Option<ShopDetail>)
    ensures page == Some(ShopShown(jwtFetch, shopsFetch))
  {
    var wrapper := new WrapperHome();
    var _ := wrapper.HandleShopDetail(jwtFetch, shopsFetch);
    page := wrapper.Page();
  }
}
