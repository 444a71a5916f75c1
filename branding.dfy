/** The branding-update resolver: how a submitted form and its posted files become the
    branding configuration handed to the branding store, or the domain error that stops
    the update. This module is the specification; AdminConsole.AdminConsoleController
    runs it step by step. */
module Branding {
  import opened Wrappers
  import opened Text

  /** An absolute System.Uri, as produced by the URI parser. */
  datatype Uri = Uri(absoluteUri: string)

  /** The parser behind `new Uri(text, UriKind.Absolute)`: a URI, or the reason the
      text is not an absolute URI (the UriFormatException). */
  type UriParser = string -> Result<Uri, string>

  /** An uploaded file's InputStream, by identity. */
  type StreamId = nat

  datatype ContactUsInformation = ContactUsInformation(email: Option<string>, phone: Option<string>)

  /** The branding configuration as the C# class holds it: each asset slot has a URI
      field and a content-stream field, both nullable. */
  datatype BrandingConfiguration = BrandingConfiguration(
    organizationName: Option<string>,
    contactUs: ContactUsInformation,
    contactSales: ContactUsInformation,
    organizationLogo: Option<Uri>,
    organizationLogoContent: Option<StreamId>,
    headerImage: Option<Uri>,
    headerImageContent: Option<StreamId>,
    privacyAgreement: Option<Uri>)

  /** A posted file: its client-side file name, declared content type and stream. */
  datatype PostedFile = PostedFile(fileName: string, contentType: string, inputStream: StreamId)

  /** Request.Form and Request.Files; a name that was not posted reads as null. */
  type Form = map<string, string>
  type Files = map<string, PostedFile>

  function Lookup<V>(m: map<string, V>, name: string): (r: Option<V>)
    ensures r.Some? <==> name in m
    ensures r.Some? ==> r.value == m[name]
  {
    if name in m then Some(m[name]) else None
  }

  datatype ErrorCode = InvalidFileType | InvalidInput

  /** A PartnerDomainException: its code, its "Field" detail and, for a URI that does
      not parse, the parser's reason. */
  datatype DomainError = DomainError(code: ErrorCode, field: string, cause: Option<string>)

  /** What the update does to one asset slot. */
  datatype Asset = Unchanged | UriRef(uri: Uri) | Content(stream: StreamId)

  /** Names of the form fields and posted files. */
  const OrganizationName := "OrganizationName"
  const ContactUsEmail := "ContactUsEmail"
  const ContactUsPhone := "ContactUsPhone"
  const ContactSalesEmail := "ContactSalesEmail"
  const ContactSalesPhone := "ContactSalesPhone"
  const OrganizationLogo := "OrganizationLogo"
  const OrganizationLogoFile := "OrganizationLogoFile"
  const HeaderImage := "HeaderImage"
  const HeaderImageFile := "HeaderImageFile"
  const PrivacyAgreement := "PrivacyAgreement"

  const ImageMarker := "image/"

  /** The slot receives an upload when a file was posted and the file's bare name equals
      the submitted display text exactly (a null display text equals nothing). */
  predicate IsUpload(file: Option<PostedFile>, display: Option<string>) {
    file.Some? && display == Some(GetFileName(file.value.fileName))
  }

  predicate IsImageType(contentType: string) {
    StartsWith(Trim(contentType), ImageMarker)
  }

  /** The display text read as an absolute URI. */
  function ResolveUri(display: string, uriField: string, parse: UriParser): (r: Result<Uri, DomainError>)
    ensures r.Success? <==> parse(display).Success?
    ensures r.Success? ==> r.value == parse(display).value
    ensures r.Failure? ==> r.error == DomainError(InvalidInput, uriField, Some(parse(display).error))
  {
    match parse(display)
    case Success(u) => Success(u)
    case Failure(why) => Failure(DomainError(InvalidInput, uriField, Some(why)))
  }

  /** One asset slot (organisation logo or header image): an uploaded image, else an
      absolute URI when the display text has content, else unchanged. */
  function ResolveSlot(display: Option<string>, file: Option<PostedFile>, fileField: string,
                       uriField: string, parse: UriParser): (r: Result<Asset, DomainError>)
    ensures r.Success? && r.value.Content? <==> IsUpload(file, display) && IsImageType(file.value.contentType)
    ensures r.Success? && r.value.Content? ==> r.value.stream == file.value.inputStream
    ensures r.Success? && r.value.UriRef? <==>
              !IsUpload(file, display) && !IsNullOrWhiteSpace(display) && parse(display.value).Success?
    ensures r.Success? && r.value.UriRef? ==> r.value.uri == parse(display.value).value
    ensures r.Success? && r.value.Unchanged? <==> !IsUpload(file, display) && IsNullOrWhiteSpace(display)
    ensures r.Failure? && r.error.code == InvalidFileType <==>
              IsUpload(file, display) && !IsImageType(file.value.contentType)
    ensures r.Failure? && r.error.code == InvalidFileType ==> r.error == DomainError(InvalidFileType, fileField, None)
    ensures r.Failure? && r.error.code == InvalidInput ==>
              r.error == DomainError(InvalidInput, uriField, Some(parse(display.value).error))
  {
    if IsUpload(file, display) then
      if !IsImageType(file.value.contentType) then
        Failure(DomainError(InvalidFileType, fileField, None))
      else
        Success(Content(file.value.inputStream))
    else if !IsNullOrWhiteSpace(display) then
      match ResolveUri(display.value, uriField, parse)
      case Success(u) => Success(UriRef(u))
      case Failure(e) => Failure(e)
    else
      Success(Unchanged)
  }

  /** The privacy-agreement field: an absolute URI when the text has content, else unchanged. */
  function ResolvePrivacy(display: Option<string>, parse: UriParser): (r: Result<Option<Uri>, DomainError>)
    ensures r.Success? && r.value.Some? <==> !IsNullOrWhiteSpace(display) && parse(display.value).Success?
    ensures r.Success? && r.value.Some? ==> r.value.value == parse(display.value).value
    ensures r.Success? && r.value.None? <==> IsNullOrWhiteSpace(display)
    ensures r.Failure? ==> r.error == DomainError(InvalidInput, PrivacyAgreement, Some(parse(display.value).error))
  {
    if !IsNullOrWhiteSpace(display) then
      match ResolveUri(display.value, PrivacyAgreement, parse)
      case Success(u) => Success(Some(u))
      case Failure(e) => Failure(e)
    else
      Success(None)
  }

  function LogoSlot(form: Form, files: Files, parse: UriParser): Result<Asset, DomainError> {
    ResolveSlot(Lookup(form, OrganizationLogo), Lookup(files, OrganizationLogoFile),
                OrganizationLogoFile, OrganizationLogo, parse)
  }

  function HeaderSlot(form: Form, files: Files, parse: UriParser): Result<Asset, DomainError> {
    ResolveSlot(Lookup(form, HeaderImage), Lookup(files, HeaderImageFile),
                HeaderImageFile, HeaderImage, parse)
  }

  function PrivacySlot(form: Form, parse: UriParser): Result<Option<Uri>, DomainError> {
    ResolvePrivacy(Lookup(form, PrivacyAgreement), parse)
  }

  /** The configuration built from the plain form fields, every asset field unset. */
  function FormConfiguration(form: Form): BrandingConfiguration {
    BrandingConfiguration(
      Lookup(form, OrganizationName),
      ContactUsInformation(Lookup(form, ContactUsEmail), Lookup(form, ContactUsPhone)),
      ContactUsInformation(Lookup(form, ContactSalesEmail), Lookup(form, ContactSalesPhone)),
      None, None, None, None, None)
  }

  /** The asset a slot's pair of fields stands for: the stream if one is set, else the
      URI if one is set, else unchanged. */
  function AssetOf(uri: Option<Uri>, content: Option<StreamId>): Asset {
    if content.Some? then Content(content.value)
    else if uri.Some? then UriRef(uri.value)
    else Unchanged
  }

  function UriOf(a: Asset): Option<Uri> {
    if a.UriRef? then Some(a.uri) else None
  }

  function ContentOf(a: Asset): Option<StreamId> {
    if a.Content? then Some(a.stream) else None
  }

  /** The whole update: the logo, then the header image, then the privacy agreement. The
      first slot that fails decides the error: the logo's before the header image's before
      the privacy agreement's. On success the plain fields are the form's own and each slot
      holds what its resolver chose, with at most one of its fields set. */
  function ResolveBranding(form: Form, files: Files, parse: UriParser): (r: Result<BrandingConfiguration, DomainError>)
    ensures var logo, header, privacy :=
              LogoSlot(form, files, parse), HeaderSlot(form, files, parse), PrivacySlot(form, parse);
            && (logo.Failure? ==> r == Failure(logo.error))
            && (logo.Success? && header.Failure? ==> r == Failure(header.error))
            && (logo.Success? && header.Success? && privacy.Failure? ==> r == Failure(privacy.error))
            && (r.Success? <==> logo.Success? && header.Success? && privacy.Success?)
    ensures r.Success? ==>
              && r.value.organizationName == Lookup(form, OrganizationName)
              && r.value.contactUs == ContactUsInformation(Lookup(form, ContactUsEmail), Lookup(form, ContactUsPhone))
              && r.value.contactSales == ContactUsInformation(Lookup(form, ContactSalesEmail), Lookup(form, ContactSalesPhone))
              && !(r.value.organizationLogo.Some? && r.value.organizationLogoContent.Some?)
              && !(r.value.headerImage.Some? && r.value.headerImageContent.Some?)
              && AssetOf(r.value.organizationLogo, r.value.organizationLogoContent) == LogoSlot(form, files, parse).value
              && AssetOf(r.value.headerImage, r.value.headerImageContent) == HeaderSlot(form, files, parse).value
              && r.value.privacyAgreement == PrivacySlot(form, parse).value
  {
    match LogoSlot(form, files, parse)
    case Failure(e) => Failure(e)
    case Success(logo) =>
      match HeaderSlot(form, files, parse)
      case Failure(e) => Failure(e)
      case Success(header) =>
        match PrivacySlot(form, parse)
        case Failure(e) => Failure(e)
        case Success(privacy) =>
          Success(FormConfiguration(form).(
            organizationLogo := UriOf(logo), organizationLogoContent := ContentOf(logo),
            headerImage := UriOf(header), headerImageContent := ContentOf(header),
            privacyAgreement := privacy))
  }

  /** A directory part in the posted file name does not stop an upload from matching:
      `C:\pics\logo.png` posted with display text `logo.png` is an upload. */
  lemma UploadIgnoresDirectory(dir: string, sep: char, name: string, contentType: string, stream: StreamId)
    requires IsSeparator(sep) && NoSeparator(name)
    ensures IsUpload(Some(PostedFile(dir + [sep] + name, contentType, stream)), Some(name))
  {
    GetFileNameAfterSeparator(dir, sep, name);
  }

  /** An upload of `logo.png` as `image/png` with the matching display text makes the
      logo slot owned content.
      The literals are bound to parameters through `requires`, so the verifier meets them as
      opaque values and does not unfold the string functions on the literal text eagerly. */
  lemma UploadedLogoExample(name: string, contentType: string, parse: UriParser)
    requires name == "logo.png" && contentType == "image/png"
    ensures ResolveSlot(Some(name), Some(PostedFile(name, contentType, 7)),
                        OrganizationLogoFile, OrganizationLogo, parse) == Success(Content(7))
  {
    GetFileNameOfBareName(name);
    ImageTypeOfTrimmed(contentType);
  }

  /** A posted logo whose bare name is the display text and whose type is an image
      becomes the logo's owned content, and no logo URI is set. */
  lemma UploadedLogo(form: Form, files: Files, parse: UriParser, file: PostedFile)
    requires Lookup(files, OrganizationLogoFile) == Some(file)
    requires Lookup(form, OrganizationLogo) == Some(GetFileName(file.fileName))
    requires IsImageType(file.contentType)
    requires ResolveBranding(form, files, parse).Success?
    ensures ResolveBranding(form, files, parse).value.organizationLogoContent == Some(file.inputStream)
    ensures ResolveBranding(form, files, parse).value.organizationLogo == None
  {
  }

  /** A content type with surrounding white space still passes the image check.
      The literals are bound to parameters through `requires`, so the verifier meets them as
      opaque values and does not unfold the string functions on the literal text eagerly. */
  lemma PaddedImageTypeExample(padded: string)
    requires padded == " image/png\t"
    ensures IsImageType(padded)
  {
    TrimUnique(padded, 1, 10);
    var core := padded[1..10];
    assert core == "image/png";
    ImageTypeOfTrimmed(core);
  }

  /** The image check is case-sensitive.
      The literals are bound to parameters through `requires`, so the verifier meets them as
      opaque values and does not unfold the string functions on the literal text eagerly. */
  lemma UpperCaseImageTypeExample(upper: string)
    requires upper == "IMAGE/PNG"
    ensures !IsImageType(upper)
  {
    TrimUnique(upper, 0, 9);
    assert upper[0] != ImageMarker[0];
  }

  lemma ImageTypeOfTrimmed(t: string)
    requires |t| >= 6 && t[..6] == ImageMarker
    requires !IsWhiteSpace(t[0]) && !IsWhiteSpace(t[|t| - 1])
    ensures Trim(t) == t && IsImageType(t)
  {
    TrimUnique(t, 0, |t|);
  }

  /** Display text that does not parse, with no file posted, fails the update with
      InvalidInput on the organisation logo, whatever else was submitted. */
  lemma UnparseableLogoExample(form: Form, files: Files, parse: UriParser)
    requires Lookup(form, OrganizationLogo) == Some("not a uri")
    requires OrganizationLogoFile !in files
    requires parse("not a uri").Failure?
    ensures ResolveBranding(form, files, parse).Failure?
    ensures ResolveBranding(form, files, parse).error.code == InvalidInput
    ensures ResolveBranding(form, files, parse).error.field == OrganizationLogo
  {
    assert "not a uri"[0] == 'n';
  }

  /** Display text with no matching upload that parses as an absolute URI becomes the
      logo's URI, equal to the parse result, and no logo content is set. */
  lemma UriLogo(form: Form, files: Files, parse: UriParser, text: string)
    requires Lookup(form, OrganizationLogo) == Some(text)
    requires !IsUpload(Lookup(files, OrganizationLogoFile), Some(text))
    requires !AllWhiteSpace(text) && parse(text).Success?
    requires ResolveBranding(form, files, parse).Success?
    ensures ResolveBranding(form, files, parse).value.organizationLogo == Some(parse(text).value)
    ensures ResolveBranding(form, files, parse).value.organizationLogoContent == None
  {
  }

  /** The organisation name and the contact fields never decide the outcome: two forms
      that agree on the logo, header image and privacy agreement texts succeed or fail
      together, with the same error. */
  lemma PlainFieldsNeverFail(form1: Form, form2: Form, files: Files, parse: UriParser)
    requires Lookup(form1, OrganizationLogo) == Lookup(form2, OrganizationLogo)
    requires Lookup(form1, HeaderImage) == Lookup(form2, HeaderImage)
    requires Lookup(form1, PrivacyAgreement) == Lookup(form2, PrivacyAgreement)
    ensures ResolveBranding(form1, files, parse).Success? == ResolveBranding(form2, files, parse).Success?
    ensures ResolveBranding(form1, files, parse).Failure? ==>
              ResolveBranding(form1, files, parse) == ResolveBranding(form2, files, parse)
  {
  }
}
