# Admin console of the Partner Center customer portal, modelled in Dafny

The admin console controller (`AdminConsoleController`) serves the partner's admin
dashboard. Its one piece of real decision logic is the branding update: for the
organisation logo and the header image it decides whether the submitted value is a newly
uploaded image, an absolute URI, or unchanged. The privacy agreement can only be a URI or
unchanged. The first slot that fails stops the update before the branding repository is
called. Around this sit the active-offer filter applied by `GetOffers` and `DeleteOffers`,
the validate-then-persist order of the payment settings update, and the dashboard status
made of three repository probes.

Files:

- `wrappers.dfy`: `Option` (a C# null), `Result` (a value or a thrown exception) and
  `Outcome` (a check that passes or throws).
- `text.dfy`: the .NET helpers the branding update relies on. These are
  `Char.IsWhiteSpace`, `String.IsNullOrWhiteSpace`, `String.Trim`, `String.StartsWith`
  and `Path.GetFileName`, each with its characterising contract.
- `branding.dfy`: the branding data model and the resolver as functions:
  `ResolveSlot` for one asset slot, `ResolvePrivacy`, and `ResolveBranding` for the whole
  update. This is the specification that the controller method is proved against.
- `offers.dfy`: partner offers and the active filter `ActiveOffers`, with its
  order, membership and multiplicity lemmas.
- `admin_console.dfy`: the three repositories as port classes, and the controller class.
  Each port keeps the log of the writes it receives and answers from it. The controller's
  methods follow the C# bodies statement by statement, and each is proved against the
  functions above.

The form and the posted files are maps from field name to value; a name that was not
posted reads as `None`, as `Request.Form[...]` and `Request.Files[...]` read as null.
Uploaded streams are opaque identities. Two foreign calls become function-valued
constants of the controller: absolute-URI parsing (`new Uri(text, UriKind.Absolute)`) and
`PayPalGateway.ValidateConfiguration`.

The branding configuration keeps the C# class's shape: two nullable fields per asset
slot, a URI and a content stream. Slot exclusivity is therefore a proved property of
the update, not a consequence of the types.

## Model

| member | source | states |
|---|---|---|
| `Text.Trim` | Source/PartnerCenter.CustomerPortal/Controllers/AdminConsoleController.cs:88 | the trimmed content type is empty exactly when the input is all white space; otherwise it neither starts nor ends with white space |
| `Text.TrimUnique` | Source/PartnerCenter.CustomerPortal/Controllers/AdminConsoleController.cs:88 | for any split of a string into a white-space prefix, a core that neither starts nor ends with white space, and a white-space suffix, Trim returns exactly that core |
| `Text.LeadingWhiteSpace` | Source/PartnerCenter.CustomerPortal/Controllers/AdminConsoleController.cs:88 | the count of leading characters Trim removes: all of them are white space, and the character after them, if any, is not |
| `Text.TrailingWhiteSpaceStart` | Source/PartnerCenter.CustomerPortal/Controllers/AdminConsoleController.cs:88 | where the trailing characters Trim removes begin: all from there on are white space, and the character before, if any, is not |
| `Text.GetFileName` | Source/PartnerCenter.CustomerPortal/Controllers/AdminConsoleController.cs:85 | the bare file name is a suffix of the path with no `\`, `/` or `:` in it, and it is either the whole path or preceded by a separator (so it starts after the last separator) |
| `Text.GetFileNameAfterSeparator` | Source/PartnerCenter.CustomerPortal/Controllers/AdminConsoleController.cs:85 | any directory part ending in a separator is stripped and the name after it is returned whole |
| `Text.GetFileNameOfBareName` | Source/PartnerCenter.CustomerPortal/Controllers/AdminConsoleController.cs:111 | a name without separators is its own file name |
| `Branding.Lookup` | Source/PartnerCenter.CustomerPortal/Controllers/AdminConsoleController.cs:82-83 | a form field or posted file reads as a value exactly when it was posted, and then as the posted value; otherwise as null |
| `Branding.ResolveUri` | Source/PartnerCenter.CustomerPortal/Controllers/AdminConsoleController.cs:97-105 | the text yields a URI exactly when it parses, and the URI is the parse result; otherwise the error is InvalidInput with the slot's field tag and the parser's reason |
| `Branding.ResolveSlot` | Source/PartnerCenter.CustomerPortal/Controllers/AdminConsoleController.cs:85-106 | the slot becomes the posted stream exactly when a file was posted, its bare name equals the display text and its trimmed content type starts with `image/`. A matching upload of another type fails InvalidFileType tagged with the file field. Otherwise non-blank text becomes the parsed URI or fails InvalidInput tagged with the URI field, and blank or null text leaves the slot unchanged |
| `Branding.ResolvePrivacy` | Source/PartnerCenter.CustomerPortal/Controllers/AdminConsoleController.cs:134-144 | non-blank privacy text becomes the parsed URI or fails InvalidInput tagged `PrivacyAgreement`; blank or null text leaves it unset |
| `Branding.ResolveBranding` | Source/PartnerCenter.CustomerPortal/Controllers/AdminConsoleController.cs:67-146 | the logo's error wins over the header's, which wins over the privacy agreement's, and the update succeeds exactly when all three slots do. On success the name and both contact blocks are the form's own, no slot has both a URI and a stream, and each slot holds what its resolver chose |
| `Branding.UploadIgnoresDirectory` | Source/PartnerCenter.CustomerPortal/Controllers/AdminConsoleController.cs:85 | a posted file `C:\pics\logo.png`, or any path ending in a separator and then the display text, matches that display text |
| `Branding.UploadedLogo` | Source/PartnerCenter.CustomerPortal/Controllers/AdminConsoleController.cs:85-93 | a matching image upload sets the logo content to the posted stream and leaves the logo URI unset |
| `Branding.UploadedLogoExample` | Source/PartnerCenter.CustomerPortal/Controllers/AdminConsoleController.cs:85-93 | `logo.png` posted as `image/png` with display text `logo.png` resolves the logo slot to the posted stream |
| `Branding.PaddedImageTypeExample` | Source/PartnerCenter.CustomerPortal/Controllers/AdminConsoleController.cs:88 | the content type ` image/png` followed by a tab passes the image check, because it is trimmed first |
| `Branding.UpperCaseImageTypeExample` | Source/PartnerCenter.CustomerPortal/Controllers/AdminConsoleController.cs:88 | the content type `IMAGE/PNG` fails the image check, because the prefix test is case-sensitive |
| `Branding.UnparseableLogoExample` | Source/PartnerCenter.CustomerPortal/Controllers/AdminConsoleController.cs:95-105 | `not a uri` with no posted file fails InvalidInput tagged `OrganizationLogo`, whatever the other fields hold |
| `Branding.UriLogo` | Source/PartnerCenter.CustomerPortal/Controllers/AdminConsoleController.cs:95-101 | non-blank logo text without a matching upload that parses becomes the logo URI, and no logo content is set |
| `Branding.PlainFieldsNeverFail` | Source/PartnerCenter.CustomerPortal/Controllers/AdminConsoleController.cs:67-80 | the organisation name and contact fields never decide success or the error |
| `Offers.ActiveOffers` | Source/PartnerCenter.CustomerPortal/Controllers/AdminConsoleController.cs:157 | an offer is in the result exactly when it is in the input and not inactive; the result is no longer than the input |
| `Offers.ActiveOffersIsSubsequence` | Source/PartnerCenter.CustomerPortal/Controllers/AdminConsoleController.cs:157 | the result is a subsequence of the repository's list: relative order is kept |
| `Offers.ActiveOffersCount` | Source/PartnerCenter.CustomerPortal/Controllers/AdminConsoleController.cs:193 | every active offer occurs as often as in the input and no inactive offer occurs |
| `Offers.ActiveOffersAppend` | Source/PartnerCenter.CustomerPortal/Controllers/AdminConsoleController.cs:157 | filtering a concatenation is the concatenation of the filtered parts |
| `Offers.ActiveOffersKeepsActive` | Source/PartnerCenter.CustomerPortal/Controllers/AdminConsoleController.cs:193 | a list without inactive offers is returned unchanged |
| `Offers.ActiveOffersIdempotent` | Source/PartnerCenter.CustomerPortal/Controllers/AdminConsoleController.cs:193 | filtering an already filtered list changes nothing |
| `AdminConsole.AdminConsoleController.GetAdminConsoleStatus` | Source/PartnerCenter.CustomerPortal/Controllers/AdminConsoleController.cs:37-46 | each of the three flags equals its own repository's answer to the configured probe |
| `AdminConsole.AdminConsoleController.GetBrandingConfiguration` | Source/PartnerCenter.CustomerPortal/Controllers/AdminConsoleController.cs:54-57 | returns the branding repository's answer to a retrieve |
| `AdminConsole.AdminConsoleController.UpdateBrandingConfiguration` | Source/PartnerCenter.CustomerPortal/Controllers/AdminConsoleController.cs:65-147 | returns ResolveBranding's error when it fails, with the branding repository untouched. When it succeeds, the repository receives exactly one update, the resolved configuration, and the method returns the repository's answer to that update |
| `AdminConsole.AdminConsoleController.GetOffers` | Source/PartnerCenter.CustomerPortal/Controllers/AdminConsoleController.cs:155-158 | returns the active offers of the list the repository's retrieve answers |
| `AdminConsole.AdminConsoleController.DeleteOffers` | Source/PartnerCenter.CustomerPortal/Controllers/AdminConsoleController.cs:191-194 | hands the offers to the repository's delete exactly once, then returns the active offers of the list the repository answers with |
| `AdminConsole.AdminConsoleController.GetMicrosoftOffers` | Source/PartnerCenter.CustomerPortal/Controllers/AdminConsoleController.cs:202-205 | returns the repository's Microsoft catalogue unchanged |
| `AdminConsole.AdminConsoleController.GetPaymentConfiguration` | Source/PartnerCenter.CustomerPortal/Controllers/AdminConsoleController.cs:213-216 | returns the payment repository's answer to a retrieve |
| `AdminConsole.AdminConsoleController.UpdatePaymentConfiguration` | Source/PartnerCenter.CustomerPortal/Controllers/AdminConsoleController.cs:225-232 | a configuration that fails validation returns the validator's error with the repository untouched. One that passes is handed to the repository by exactly one update, and the repository's answer is returned. The repository never receives an update that failed validation, an invariant every call keeps |

## Left out

- HTTP plumbing: routing, the authorisation attribute, model binding and `async`/`Task` are not modelled. Every call runs to completion in sequence, as the code awaits each in turn.
- The repositories (`ApplicationDomain.Instance.PortalBranding`, `OffersRepository`, `PaymentConfigurationRepository`) are not part of this model. Each port keeps the log of the writes it receives, and answers every call with a function of that log fixed when the port is built. No storage rule is presumed: what a retrieve returns after an update, what `MarkAsDeleted` does to the offers, blob upload of content streams and persistence failures all belong to the real repositories. In particular the controller's contracts do not say what the repository holds after an update, only what it was handed and that its answer is passed on.
- `AddOffer` and `UpdateOffer` (lines 167-182) only forward to the offers repository, whose behaviour is not part of this model, so they are not modelled.
- Absolute-URI parsing is the function-valued constant `parseUri`, and `PayPalGateway.ValidateConfiguration` is `validatePayment`. Neither grammar nor gateway rule is modelled.
- `Text.StartsWith` is an ordinal prefix test. The C# call is culture-sensitive (still case-sensitive), which can differ on ignorable characters.
- `Text.GetFileName` does not model the exception `Path.GetFileName` throws for invalid path characters.
- `Text.IsWhiteSpace` lists the white-space characters of current Unicode tables; older .NET runtimes also counted U+180E.
- A posted file's content type is taken to be non-null; a null content type would throw a NullReferenceException at `Trim`.
- A null offer list from the repository, or a null element in it, is not modelled; either makes the filter throw (lines 157 and 193). LINQ's deferred evaluation is not modelled either: the filter is applied at once.
- The human-readable exception messages are not modelled. Errors carry their code, the `Field` detail and, for URIs, the parser's reason.
- `AdminConsole.AdminConsoleController.GetAdminConsoleStatus`: the port probes do not log their calls, so the contract states the three flags but not that each probe ran.
- A display value that is null or only white space is not parsed as a URI (lines 95, 121 and 134); the model follows this.
