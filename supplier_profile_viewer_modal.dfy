/** The administrator's supplier profile dialog
    (frontend/src/components/admin/SupplierProfileViewerModal.jsx): which
    documents can be previewed, whether the documents section has anything,
    the keyboard focus trap, and when opening fetches the profile. */
module SupplierProfileViewerModal {
  import opened Common

  /** `/\.(png|jpe?g)$/i`: the address ends in `.png`, `.jpg` or `.jpeg`,
      ignoring case. */
  predicate IsImage(url: string)
  {
    var u := Lower(url);
    EndsWith(u, ".png") || EndsWith(u, ".jpg") || EndsWith(u, ".jpeg")
  }

  /** `/\.pdf$/i`. */
  predicate IsPdf(url: string) { EndsWith(Lower(url), ".pdf") }

  /** A document gets a Preview button when it is a PDF or an image. */
  predicate IsPreviewable(url: string) { IsPdf(url) || IsImage(url) }

  /** The last character of a suffix is the last character of the text. */
  lemma LastOfSuffix(s: string, p: string)
    requires EndsWith(s, p) && p != []
    ensures s[|s| - 1] == p[|p| - 1]
  {
    assert s[|s| - |p|..][|p| - 1] == s[|s| - 1];
  }

  /** No address is both an image and a PDF: the last letter tells them
      apart. */
  lemma ImageOrPdfNotBoth(url: string)
    ensures !(IsImage(url) && IsPdf(url))
  {
    var u := Lower(url);
    if IsPdf(url) {
      LastOfSuffix(u, ".pdf");
      if EndsWith(u, ".png") { LastOfSuffix(u, ".png"); }
      if EndsWith(u, ".jpg") { LastOfSuffix(u, ".jpg"); }
      if EndsWith(u, ".jpeg") { LastOfSuffix(u, ".jpeg"); }
    }
  }

  /** The tests ignore case: an address and its lower-case form are
      previewable alike. */
  lemma PreviewIgnoresCase(url: string)
    ensures IsImage(Lower(url)) == IsImage(url) && IsPdf(Lower(url)) == IsPdf(url)
  {
    LowerIdempotent(url);
  }

  /** The extension must end the address: an image inside a `.zip` is not
      previewable. */
  lemma ZipNotPreviewable(url: string)
    requires EndsWith(url, ".zip")
    ensures !IsPreviewable(url)
  {
    var u := Lower(url);
    LastOfSuffix(url, ".zip");
    assert u[|u| - 1] == 'p';
    if EndsWith(u, ".pdf") { LastOfSuffix(u, ".pdf"); }
    if EndsWith(u, ".png") { LastOfSuffix(u, ".png"); }
    if EndsWith(u, ".jpg") { LastOfSuffix(u, ".jpg"); }
    if EndsWith(u, ".jpeg") { LastOfSuffix(u, ".jpeg"); }
  }

  /** Case does not matter: an upper-case `.JPEG` is an image. */
  lemma UpperJpegIsImage(url: string)
    requires EndsWith(url, ".JPEG")
    ensures IsImage(url)
  {
    var u := Lower(url);
    var n := |u|;
    assert url[n - 5..] == ".JPEG";
    assert url[n - 5] == '.' && url[n - 4] == 'J' && url[n - 3] == 'P' && url[n - 2] == 'E' && url[n - 1] == 'G';
    assert u[n - 5..] == ".jpeg";
  }

  /** The profile fields the dialog reads; an empty text is a missing
      value, and `user` is the account's id, if any. */
  datatype Profile = Profile(
    businessRegNumber: string,
    userEmail: string,
    user: Option<int>,
    businessRegCertificateUrl: string,
    taxComplianceCertUrl: string,
    companyProfileUrl: string)

  /** `hasDocs`: a profile is loaded and at least one of its three
      document addresses is non-empty. */
  function HasDocs(profile: Option<Profile>): (r: bool)
    ensures r <==> profile.Some? &&
                     (profile.value.businessRegCertificateUrl != "" || profile.value.taxComplianceCertUrl != ""
                      || profile.value.companyProfileUrl != "")
  {
    match profile
    case None => false
    case Some(p) => p.businessRegCertificateUrl != "" || p.taxComplianceCertUrl != "" || p.companyProfileUrl != ""
  }

  /** A truthy id: present and not 0. */
  predicate Truthy(id: Option<int>) { id.Some? && id.value != 0 }

  /** `hasMinimalPreload`: a preloaded profile with a registration number,
      an email or a user. */
  predicate HasMinimalPreload(preload: Option<Profile>)
  {
    preload.Some? && (preload.value.businessRegNumber != "" || preload.value.userEmail != "" || Truthy(preload.value.user))
  }

  /** What opening the dialog does with the profile. */
  datatype OnOpen = Fetch(userId: int) | UsePreload(profile: Profile) | KeepProfile

  /** Opening fetches the supplier's profile only when the preload is not
      enough and there is a user id; an adequate preload is shown as it
      is; with neither nothing happens. */
  function OpenAction(preload: Option<Profile>, userId: Option<int>): (a: OnOpen)
    ensures a.Fetch? <==> !HasMinimalPreload(preload) && Truthy(userId)
    ensures a.Fetch? ==> userId == Some(a.userId)
    ensures a.UsePreload? <==> HasMinimalPreload(preload)
    ensures a.UsePreload? ==> preload == Some(a.profile)
  {
    if !HasMinimalPreload(preload) && Truthy(userId) then Fetch(userId.value)
    else if HasMinimalPreload(preload) then UsePreload(preload.value)
    else KeepProfile
  }

  /** A preload carrying any one of the three markers is never refetched,
      whatever the user id. */
  lemma PreloadSkipsFetch(p: Profile, userId: Option<int>)
    requires p.businessRegNumber != "" || p.userEmail != "" || Truthy(p.user)
    ensures !OpenAction(Some(p), userId).Fetch?
  {
  }

  /** The message of a failed load: the server's `error`, else the error's
      own message, else the fallback. */
  function LoadFailure(serverError: Option<string>, message: string): (m: string)
    ensures m != ""
    ensures serverError.Some? && serverError.value != "" ==> m == serverError.value
    ensures (serverError.None? || serverError.value == "") && message != "" ==> m == message
  {
    if serverError.Some? && serverError.value != "" then serverError.value
    else if message != "" then message
    else "Failed to load supplier profile"
  }

  /** The focus trap, on a key press: the element moved to, or None when
      the press is left to the browser. Elements are identified by number,
      `focusable` in document order. */
  function TrapFocus(key: string, shift: bool, focusable: seq<int>, active: int): (r: Option<int>)
    ensures key != "Tab" || focusable == [] ==> r.None?
    ensures key == "Tab" && focusable != [] ==>
              (shift && active == focusable[0] ==> r == Some(focusable[|focusable| - 1]))
              && (!shift && active == focusable[|focusable| - 1] ==> r == Some(focusable[0]))
              && (r.Some? <==> (shift && active == focusable[0]) || (!shift && active == focusable[|focusable| - 1]))
  {
    if key != "Tab" || focusable == [] then None
    else if shift && active == focusable[0] then Some(focusable[|focusable| - 1])
    else if !shift && active == focusable[|focusable| - 1] then Some(focusable[0])
    else None
  }

  /** Wrapping undoes itself: Tab from the last element reaches the first,
      and Shift+Tab from there returns to the last. */
  lemma TrapRoundTrip(focusable: seq<int>)
    requires focusable != []
    ensures var first := TrapFocus("Tab", false, focusable, focusable[|focusable| - 1]);
            first == Some(focusable[0])
            && TrapFocus("Tab", true, focusable, first.value) == Some(focusable[|focusable| - 1])
  {
  }
}
