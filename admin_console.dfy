/** The admin console controller and the three repositories it calls. A repository is a
    port whose storage lies outside the model: it keeps the log of the writes it has
    received, and every answer it gives is a function, fixed when the port is built, of
    that log (and, for a write, of the value written). The controller's contracts can
    therefore say which writes it made and that it passes on exactly what the port
    answered, without presuming how the storage behaves. */
module AdminConsole {
  import opened Wrappers
  import opened Text
  import opened Branding
  import opened Offers

  /** The portal's payment gateway settings, by setting name. */
  datatype PaymentConfiguration = PaymentConfiguration(paymentGateway: string, settings: map<string, string>)

  /** The three "is configured" flags of the admin dashboard. */
  datatype AdminConsoleViewModel = AdminConsoleViewModel(
    isOffersConfigured: bool, isBrandingConfigured: bool, isPaymentConfigured: bool)

  /** The portal branding repository. */
  class BrandingRepository {
    /** The configurations written so far, oldest first. */
    var updates: seq<BrandingConfiguration>
    const isConfigured: seq<BrandingConfiguration> -> bool
    const retrieve: seq<BrandingConfiguration> -> BrandingConfiguration
    /** What a write answers, given the earlier writes and the value written. */
    const respond: (seq<BrandingConfiguration>, BrandingConfiguration) -> BrandingConfiguration

    constructor (isConfigured: seq<BrandingConfiguration> -> bool,
                 retrieve: seq<BrandingConfiguration> -> BrandingConfiguration,
                 respond: (seq<BrandingConfiguration>, BrandingConfiguration) -> BrandingConfiguration)
      ensures this.isConfigured == isConfigured && this.retrieve == retrieve
      ensures this.respond == respond && updates == []
    {
      this.isConfigured := isConfigured;
      this.retrieve := retrieve;
      this.respond := respond;
      updates := [];
    }

    method IsConfigured() returns (b: bool)
      ensures b == isConfigured(updates)
    {
      b := isConfigured(updates);
    }

    method Retrieve() returns (c: BrandingConfiguration)
      ensures c == retrieve(updates)
    {
      c := retrieve(updates);
    }

    method Update(c: BrandingConfiguration) returns (saved: BrandingConfiguration)
      modifies this
      ensures saved == respond(old(updates), c)
      ensures updates == old(updates) + [c]
    {
      saved := respond(updates, c);
      updates := updates + [c];
    }
  }

  /** The partner offers repository, with the Microsoft offer catalogue beside it. Its
      log holds the argument of every MarkAsDeleted call. */
  class OffersRepository {
    var deletions: seq<seq<PartnerOffer>>
    const isConfigured: seq<seq<PartnerOffer>> -> bool
    const retrieve: seq<seq<PartnerOffer>> -> seq<PartnerOffer>
    const retrieveMicrosoftOffers: seq<seq<PartnerOffer>> -> seq<MicrosoftOffer>
    /** The full offer list a MarkAsDeleted call answers, given the earlier calls and
        the offers to delete. */
    const markAsDeleted: (seq<seq<PartnerOffer>>, seq<PartnerOffer>) -> seq<PartnerOffer>

    constructor (isConfigured: seq<seq<PartnerOffer>> -> bool,
                 retrieve: seq<seq<PartnerOffer>> -> seq<PartnerOffer>,
                 retrieveMicrosoftOffers: seq<seq<PartnerOffer>> -> seq<MicrosoftOffer>,
                 markAsDeleted: (seq<seq<PartnerOffer>>, seq<PartnerOffer>) -> seq<PartnerOffer>)
      ensures this.isConfigured == isConfigured && this.retrieve == retrieve
      ensures this.retrieveMicrosoftOffers == retrieveMicrosoftOffers
      ensures this.markAsDeleted == markAsDeleted && deletions == []
    {
      this.isConfigured := isConfigured;
      this.retrieve := retrieve;
      this.retrieveMicrosoftOffers := retrieveMicrosoftOffers;
      this.markAsDeleted := markAsDeleted;
      deletions := [];
    }

    method IsConfigured() returns (b: bool)
      ensures b == isConfigured(deletions)
    {
      b := isConfigured(deletions);
    }

    method Retrieve() returns (r: seq<PartnerOffer>)
      ensures r == retrieve(deletions)
    {
      r := retrieve(deletions);
    }

    method RetrieveMicrosoftOffers() returns (r: seq<MicrosoftOffer>)
      ensures r == retrieveMicrosoftOffers(deletions)
    {
      r := retrieveMicrosoftOffers(deletions);
    }

    method MarkAsDeleted(toDelete: seq<PartnerOffer>) returns (r: seq<PartnerOffer>)
      modifies this
      ensures r == markAsDeleted(old(deletions), toDelete)
      ensures deletions == old(deletions) + [toDelete]
    {
      r := markAsDeleted(deletions, toDelete);
      deletions := deletions + [toDelete];
    }
  }

  /** The payment configuration repository. */
  class PaymentConfigurationRepository {
    /** The configurations written so far, oldest first. */
    var updates: seq<PaymentConfiguration>
    const isConfigured: seq<PaymentConfiguration> -> bool
    const retrieve: seq<PaymentConfiguration> -> PaymentConfiguration
    /** What a write answers, given the earlier writes and the value written. */
    const respond: (seq<PaymentConfiguration>, PaymentConfiguration) -> PaymentConfiguration

    constructor (isConfigured: seq<PaymentConfiguration> -> bool,
                 retrieve: seq<PaymentConfiguration> -> PaymentConfiguration,
                 respond: (seq<PaymentConfiguration>, PaymentConfiguration) -> PaymentConfiguration)
      ensures this.isConfigured == isConfigured && this.retrieve == retrieve
      ensures this.respond == respond && updates == []
    {
      this.isConfigured := isConfigured;
      this.retrieve := retrieve;
      this.respond := respond;
      updates := [];
    }

    method IsConfigured() returns (b: bool)
      ensures b == isConfigured(updates)
    {
      b := isConfigured(updates);
    }

    method Retrieve() returns (c: PaymentConfiguration)
      ensures c == retrieve(updates)
    {
      c := retrieve(updates);
    }

    method Update(c: PaymentConfiguration) returns (saved: PaymentConfiguration)
      modifies this
      ensures saved == respond(old(updates), c)
      ensures updates == old(updates) + [c]
    {
      saved := respond(updates, c);
      updates := updates + [c];
    }
  }

  /** Serves the admin dashboard: branding, offers, payment settings and setup status. */
  class AdminConsoleController {
    const brandingRepository: BrandingRepository
    const offersRepository: OffersRepository
    const paymentRepository: PaymentConfigurationRepository
    /** `new Uri(text, UriKind.Absolute)`. */
    const parseUri: UriParser
    /** PayPalGateway.ValidateConfiguration. */
    const validatePayment: PaymentConfiguration -> Outcome<DomainError>

    /** Every configuration the payment repository has been handed passed validation. */
    ghost predicate Valid()
      reads this, paymentRepository
    {
      forall c :: c in paymentRepository.updates ==> validatePayment(c).Pass?
    }

    constructor (branding: BrandingRepository, offers: OffersRepository,
                 payment: PaymentConfigurationRepository, parseUri: UriParser,
                 validatePayment: PaymentConfiguration -> Outcome<DomainError>)
      requires forall c :: c in payment.updates ==> validatePayment(c).Pass?
      ensures brandingRepository == branding && offersRepository == offers && paymentRepository == payment
      ensures this.parseUri == parseUri && this.validatePayment == validatePayment
      ensures Valid()
    {
      brandingRepository := branding;
      offersRepository := offers;
      paymentRepository := payment;
      this.parseUri := parseUri;
      this.validatePayment := validatePayment;
    }

    /** Each flag is its own repository's answer; all three repositories are asked. */
    method GetAdminConsoleStatus() returns (status: AdminConsoleViewModel)
      ensures status.isOffersConfigured == offersRepository.isConfigured(offersRepository.deletions)
      ensures status.isBrandingConfigured == brandingRepository.isConfigured(brandingRepository.updates)
      ensures status.isPaymentConfigured == paymentRepository.isConfigured(paymentRepository.updates)
    {
      status := AdminConsoleViewModel(false, false, false);
      var offersConfigured := offersRepository.IsConfigured();
      status := status.(isOffersConfigured := offersConfigured);
      var brandingConfigured := brandingRepository.IsConfigured();
      status := status.(isBrandingConfigured := brandingConfigured);
      var paymentConfigured := paymentRepository.IsConfigured();
      status := status.(isPaymentConfigured := paymentConfigured);
    }

    method GetBrandingConfiguration() returns (c: BrandingConfiguration)
      ensures c == brandingRepository.retrieve(brandingRepository.updates)
    {
      c := brandingRepository.Retrieve();
    }

    /** Builds the configuration from the form, resolves the logo, the header image and
        the privacy agreement in that order, and hands the result to the branding
        repository; the first slot that fails ends the update before the repository is
        called, so the repository receives exactly one update, the resolved configuration,
        and its answer is what the controller returns. */
    method UpdateBrandingConfiguration(form: Form, files: Files) returns (r: Result<BrandingConfiguration, DomainError>)
      modifies brandingRepository
      ensures ResolveBranding(form, files, parseUri).Failure? ==>
                r == ResolveBranding(form, files, parseUri) && unchanged(brandingRepository)
      ensures ResolveBranding(form, files, parseUri).Success? ==>
                && brandingRepository.updates == old(brandingRepository.updates) + [ResolveBranding(form, files, parseUri).value]
                && r == Success(brandingRepository.respond(old(brandingRepository.updates), ResolveBranding(form, files, parseUri).value))
    {
      ghost var logo, header, privacy := LogoSlot(form, files, parseUri), HeaderSlot(form, files, parseUri), PrivacySlot(form, parseUri);
      var configuration := FormConfiguration(form);

      var organizationLogo := Lookup(form, OrganizationLogo);
      var organizationLogoPostedFile := Lookup(files, OrganizationLogoFile);
      if organizationLogoPostedFile.Some? && Some(GetFileName(organizationLogoPostedFile.value.fileName)) == organizationLogo {
        if !StartsWith(Trim(organizationLogoPostedFile.value.contentType), ImageMarker) {
          return Failure(DomainError(InvalidFileType, OrganizationLogoFile, None));
        }
        configuration := configuration.(organizationLogoContent := Some(organizationLogoPostedFile.value.inputStream));
      } else if !IsNullOrWhiteSpace(organizationLogo) {
        match parseUri(organizationLogo.value)
        case Success(uri) =>
          configuration := configuration.(organizationLogo := Some(uri));
        case Failure(invalidUri) =>
          return Failure(DomainError(InvalidInput, OrganizationLogo, Some(invalidUri)));
      }

      assert logo.Success? && configuration == FormConfiguration(form).(
        organizationLogo := UriOf(logo.value), organizationLogoContent := ContentOf(logo.value));

      var headerImage := Lookup(form, HeaderImage);
      var headerImageUploadPostedFile := Lookup(files, HeaderImageFile);
      if headerImageUploadPostedFile.Some? && Some(GetFileName(headerImageUploadPostedFile.value.fileName)) == headerImage {
        if !StartsWith(Trim(headerImageUploadPostedFile.value.contentType), ImageMarker) {
          return Failure(DomainError(InvalidFileType, HeaderImageFile, None));
        }
        configuration := configuration.(headerImageContent := Some(headerImageUploadPostedFile.value.inputStream));
      } else if !IsNullOrWhiteSpace(headerImage) {
        match parseUri(headerImage.value)
        case Success(uri) =>
          configuration := configuration.(headerImage := Some(uri));
        case Failure(invalidUri) =>
          return Failure(DomainError(InvalidInput, HeaderImage, Some(invalidUri)));
      }

      assert header.Success? && configuration == FormConfiguration(form).(
        organizationLogo := UriOf(logo.value), organizationLogoContent := ContentOf(logo.value),
        headerImage := UriOf(header.value), headerImageContent := ContentOf(header.value));

      if !IsNullOrWhiteSpace(Lookup(form, PrivacyAgreement)) {
        match parseUri(Lookup(form, PrivacyAgreement).value)
        case Success(uri) =>
          configuration := configuration.(privacyAgreement := Some(uri));
        case Failure(invalidUri) =>
          return Failure(DomainError(InvalidInput, PrivacyAgreement, Some(invalidUri)));
      }

      assert privacy.Success? && configuration == FormConfiguration(form).(
        organizationLogo := UriOf(logo.value), organizationLogoContent := ContentOf(logo.value),
        headerImage := UriOf(header.value), headerImageContent := ContentOf(header.value),
        privacyAgreement := privacy.value);
      assert ResolveBranding(form, files, parseUri) == Success(configuration);
      var saved := brandingRepository.Update(configuration);
      return Success(saved);
    }

    /** The repository's offers that are not marked inactive, in the repository's order. */
    method GetOffers() returns (active: seq<PartnerOffer>)
      ensures active == ActiveOffers(offersRepository.retrieve(offersRepository.deletions))
    {
      var offers := offersRepository.Retrieve();
      active := ActiveOffers(offers);
    }

    /** Hands the offers to delete to the repository and returns the active ones among the
        offers it answers with. */
    method DeleteOffers(partnerOffersToDelete: seq<PartnerOffer>) returns (active: seq<PartnerOffer>)
      modifies offersRepository
      ensures offersRepository.deletions == old(offersRepository.deletions) + [partnerOffersToDelete]
      ensures active == ActiveOffers(offersRepository.markAsDeleted(old(offersRepository.deletions), partnerOffersToDelete))
    {
      var offers := offersRepository.MarkAsDeleted(partnerOffersToDelete);
      active := ActiveOffers(offers);
    }

    method GetMicrosoftOffers() returns (offers: seq<MicrosoftOffer>)
      ensures offers == offersRepository.retrieveMicrosoftOffers(offersRepository.deletions)
    {
      offers := offersRepository.RetrieveMicrosoftOffers();
    }

    method GetPaymentConfiguration() returns (c: PaymentConfiguration)
      ensures c == paymentRepository.retrieve(paymentRepository.updates)
    {
      c := paymentRepository.Retrieve();
    }

    /** Validates the configuration first; only a configuration that passes reaches the
        repository, which then receives exactly that one update, and its answer is what
        the controller returns. */
    method UpdatePaymentConfiguration(paymentConfiguration: PaymentConfiguration) returns (r: Result<PaymentConfiguration, DomainError>)
      requires Valid()
      modifies paymentRepository
      ensures Valid()
      ensures validatePayment(paymentConfiguration).Fail? ==>
                r == Failure(validatePayment(paymentConfiguration).error) && unchanged(paymentRepository)
      ensures validatePayment(paymentConfiguration).Pass? ==>
                && paymentRepository.updates == old(paymentRepository.updates) + [paymentConfiguration]
                && r == Success(paymentRepository.respond(old(paymentRepository.updates), paymentConfiguration))
    {
      match validatePayment(paymentConfiguration)
      case Fail(e) =>
        return Failure(e);
      case Pass =>
        var paymentConfig := paymentRepository.Update(paymentConfiguration);
        return Success(paymentConfig);
    }
  }
}
