# DDI Phone Field — a Dafny model

DDI Phone Field is a WordPress plugin. It turns telephone inputs into
international phone fields: a country selector with the dial code, a mask,
and validation. It also wires those fields into a page builder, a contact-form
plugin and an e-commerce store. This project models the plugin's logic in Dafny
and proves what that logic guarantees.

The modules follow the plugin's files:

- `Text` (text.dfy) holds the character sets and string built-ins the other
  modules share. These are JavaScript `trim` and `\s`, PCRE's ASCII `\s`, PHP
  `trim`, PHP `empty`, `includes`, and `stripslashes`/`addslashes`.
- `PhonePatterns` (patterns.dfy) has the five `^[\+]?[C]+$` phone patterns of the
  plugin as one predicate. It proves how the patterns relate to each other.
- `PhoneField` (phone_field.dfy) models the front-end controller `DDIPhoneField`.
  - It is a `Controller` class. Its fields are the registry of attached widgets,
    the document's telephone inputs, the disposed widgets and the two observers.
    Each input's validation container is a `Wrapper` object.
  - The widget library and the mask plugin are oracles, and their results are
    parameters. The widget handle records which of `destroy`, `isValidNumber`
    and `getNumber` it has. `isValidNumber` may answer valid or invalid, or throw.
  - Loops over the registry and the document are methods with loop invariants.
    Each is proved against a specification function (`AttachAll`, `ReinitAll`,
    `Kept`), and lemmas state what those functions guarantee.
- `HostEvents` (host_events.dfy) models three parts of the page:
  - the document-ready callbacks that create the controller and the page-builder
    integration once;
  - the table from page-builder popup events, clicks and key presses to the
    delayed controller actions;
  - the running of those actions.
- `PageBuilderForms` (elementor.dfy) models the page-builder integration's submit,
  blur and input handlers and its removal of validation attributes.
- `ContactForm` (cf7.dfy) models the contact-form tag's attributes and the
  server-side validation of the posted value.
- `Checkout` (woocommerce.dfy) models the store's field-array filters and its
  phone check.
- `AdminSettings` (admin.dfy) models the settings page's width check, the guard on
  its submit button and the live preview.
- `Loader` (loader.dfy) models the asset loader: the inline CSS built from the
  settings, and the admin script gate.

Three behaviours of the code that a reader may not expect:

- `forceReinit` disposes and forgets every registry entry, not only the
  unmanaged ones.
- The controller's regular and popup patterns (assets/js/ddi-phone-field.js:280, 297)
  and the two server checks (includes/cf7/class-cf7-integration.php:258,
  includes/woocommerce/class-woocommerce-integration.php:173) also accept `# * & =`.
  The page-builder pattern and the contact-form tag's HTML `pattern` accept none
  of these four.
- `destroy` disconnects only the popup observer. The dynamic-content observer
  stays connected.

## Model

| member | source | states |
|---|---|---|
| Text.TrimWithShape | assets/js/ddi-phone-field.js:275 | trimming gives a piece of the input that neither starts nor ends with a trimmed character; it is empty exactly when every character of the input is trimmed |
| Text.TrimIdempotent | assets/js/admin.js:48 | trimming an already trimmed value changes nothing |
| Text.ContainsAt | assets/js/admin.js:169 | `includes` holds exactly when the substring occurs at some index |
| Text.StripSlashesOfAddSlashes | includes/cf7/class-cf7-integration.php:238 | `wp_unslash` gives back exactly the value the browser sent before WordPress slashed it |
| Text.StripSlashesNoBackslash | includes/cf7/class-cf7-integration.php:238 | `wp_unslash` leaves a value without backslashes unchanged |
| PhonePatterns.PlusInClassMatches | assets/js/ddi-phone-field.js:297 | a pattern whose class holds `+` accepts exactly the non-empty strings of class characters; the optional leading `+` adds nothing |
| PhonePatterns.PageBuilderMatches | assets/js/elementor-integration.js:43 | the page-builder pattern accepts a `+` only in first place, and it must be followed by at least one class character |
| PhonePatterns.PopupSubsetOfRegular | assets/js/ddi-phone-field.js:280 | every value the popup pattern accepts is accepted by the regular pattern |
| PhonePatterns.PopupRefusesSpace | assets/js/ddi-phone-field.js:280 | the inclusion is strict: a number with a space passes the regular pattern and fails the popup pattern |
| PhonePatterns.PageBuilderSubsetOfRegular | assets/js/elementor-integration.js:43 | every value the page-builder pattern accepts is accepted by the controller's regular pattern |
| PhonePatterns.PageBuilderRefusesInnerPlus | assets/js/elementor-integration.js:43 | the page-builder pattern refuses an inner `+`, a doubled leading `+` and a lone `+`, all of which the regular pattern accepts |
| PhonePatterns.TagAttributeSubsetOfServer | includes/cf7/class-cf7-integration.php:91 | on ASCII strings, every value the tag's HTML `pattern` lets through is accepted by the server check |
| PhonePatterns.TagAttributeNotSubsetOfServer | includes/cf7/class-cf7-integration.php:91 | beyond ASCII the inclusion fails: a no-break space passes the browser's `\s` and is refused by the server's |
| PhonePatterns.ServerDollarBeforeNewline | includes/cf7/class-cf7-integration.php:258 | PCRE's `$` also matches before a final line feed, and this does not widen what the server pattern accepts |
| PhoneField.BrazilMaskFor | assets/js/ddi-phone-field.js:222 | the mobile mask is chosen exactly when the masked text is longer than 14 characters, and the landline mask otherwise |
| PhoneField.CountryMask | assets/js/ddi-phone-field.js:461-475 | `br` gets the Brazilian landline mask and every other country the 15-digit mask |
| PhoneField.AfterKeyPress | assets/js/ddi-phone-field.js:221-223 | a key press re-selects a Brazilian mask from the text and changes nothing else; other masks are untouched |
| PhoneField.KeyPressesKeepBrazilMask | assets/js/ddi-phone-field.js:220-223 | a Brazilian mask stays Brazilian through any sequence of key presses |
| PhoneField.AttachTwiceIsAttachOnce | assets/js/ddi-phone-field.js:44-48 | a second attach after one that stored an entry changes neither the registry nor the input: no second entry, widget or listener set |
| PhoneField.FailedAttachStoresNothing | assets/js/ddi-phone-field.js:50-94 | a widget construction that throws stores no entry and changes nothing but the removed mask |
| PhoneField.PopupDecidedAtAttach | assets/js/ddi-phone-field.js:57-90 | a mask is applied only outside popups; the popup class and the removal of `pattern` happen only inside them |
| PhoneField.DetachedIsAttachable | assets/js/ddi-phone-field.js:189-209 | after a forced popup re-initialisation the input is no longer skipped, and the next attach adds exactly one listener set |
| PhoneField.EmptyIsBlank | assets/js/ddi-phone-field.js:274-330 | validation shows nothing exactly when the trimmed value is empty |
| PhoneField.ForeignCharacterRejected | assets/js/ddi-phone-field.js:282-306 | a character outside the class rejects the value with the character message, whatever the widget answers |
| PhoneField.ClassCharactersPassPattern | assets/js/ddi-phone-field.js:297-329 | a value made of class characters is accepted, or refused as an invalid number only outside popups, with 10 or more digits, and when the widget says invalid |
| PhoneField.NumberCheckConsultedOnlyWhen | assets/js/ddi-phone-field.js:310-322 | the widget's answer matters only outside popups, with `isValidNumber` present and 10 or more digits; a thrown check counts as valid |
| PhoneField.RepeatedErrorsOneNode | assets/js/ddi-phone-field.js:335-347 | any number of failures leaves exactly one error node, which shows the last message |
| PhoneField.SuccessAndClearRemoveError | assets/js/ddi-phone-field.js:352-374 | success removes the error class and node and sets the success class; clearing removes both classes and the node |
| PhoneField.RegularValidationState | assets/js/ddi-phone-field.js:297-329 | outside popups the container ends with the error class and one node iff rejected, and with the success class and no node iff accepted |
| PhoneField.PopupKeepsStaleSuccess | assets/js/ddi-phone-field.js:279-294 | popup fields are never cleared first, so acceptance followed by rejection shows both classes |
| PhoneField.BlurKeepsOneNode | assets/js/ddi-phone-field.js:242-244 | however many listener sets run `validateField` on one blur, a container never gains a second error node |
| PhoneField.BlurLastSetDecides | assets/js/ddi-phone-field.js:242-244 | outside popups, when several listener sets handle one blur, the set added last alone decides the classes and the error node |
| PhoneField.SubmitCancelIff | assets/js/ddi-phone-field.js:255-258 | with several listener sets on one submit, the submit is cancelled exactly when one of the sets' rejection flags is set; `preventDefault` in one set does not stop the others |
| PhoneField.RejectionsAt | assets/js/ddi-phone-field.js:255-266 | the `i`-th rejection flag is the verdict of the `i`-th set's widget on the value the sets before it left, which they may have rewritten |
| PhoneField.SubmitValueOrigin | assets/js/ddi-phone-field.js:261-266 | after a submit the field holds its old value or the E.164 number of some set whose widget has `getNumber`, a destroyed widget included |
| PhoneField.SubmitForeignCharacterCancels | assets/js/ddi-phone-field.js:255-258 | a value with a character outside the pattern's class is refused by every set: the submit is cancelled and the value is never rewritten |
| PhoneField.Unmarked | assets/js/ddi-phone-field.js:34 | the scan's selector yields only inputs of the document |
| PhoneField.UnmarkedMembers | assets/js/ddi-phone-field.js:34 | the scan finds exactly the inputs without the widget marker, each once |
| PhoneField.AttachAllRegistry | assets/js/ddi-phone-field.js:36-38 | attaching distinct inputs registers exactly the listed, unmarked, unregistered inputs whose construction succeeds, with their widget, and keeps every other entry |
| PhoneField.AttachAllInputs | assets/js/ddi-phone-field.js:36-38 | attaching distinct inputs changes each listed input once, from its original state, and no other input |
| PhoneField.AttachAllCovers | assets/js/ddi-phone-field.js:36-38 | attaching a list keeps every existing entry, and each listed input ends registered unless it was marked or its construction failed |
| PhoneField.ScanResult | assets/js/ddi-phone-field.js:33-39 | a document scan attaches exactly the unmarked inputs and registers exactly those whose construction succeeds |
| PhoneField.RescanChangesNothing | assets/js/ddi-phone-field.js:33-48 | a second scan with the same widget outcomes leaves the registry and every input unchanged |
| PhoneField.ScanFixpoint | assets/js/ddi-phone-field.js:44-54 | a scan leaves a state unchanged when all its unregistered, unmarked inputs fail to construct and are already unmasked |
| PhoneField.ReinitAllRegistry | assets/js/ddi-phone-field.js:177-183 | re-initialising a popup's inputs forgets exactly their entries and keeps the others unchanged |
| PhoneField.ReinitAllInputs | assets/js/ddi-phone-field.js:177-183 | re-initialising a popup's inputs detaches exactly those inputs, without `pattern`, however often they are listed |
| PhoneField.ReinitAllDisposed | assets/js/ddi-phone-field.js:189-209 | re-initialising a popup's inputs disposes exactly the widgets of their entries that have `destroy` |
| PhoneField.TelFields | assets/js/ddi-phone-field.js:150-155 | the inputs the popup observer attaches are inputs of the document |
| PhoneField.PopupModals | assets/js/ddi-phone-field.js:145-148 | only added popup-modal elements are handed to `handlePopupOpen` |
| PhoneField.ShouldRescan | assets/js/ddi-phone-field.js:393-419 | the dynamic-content observer schedules a re-scan iff some `childList` record adds an element with telephone inputs or a popup modal |
| PhoneField.TriggersIffObserved | assets/js/ddi-phone-field.js:142-159 | an added node triggers a re-scan iff the popup observer attaches an input below it or hands off a popup |
| PhoneField.RescanIffPopupObserverActs | assets/js/ddi-phone-field.js:393-419 | on `childList` records the content observer re-scans iff the popup observer attaches something or hands off a popup |
| PhoneField.CleanupKeepsRegularEntries | assets/js/ddi-phone-field.js:537-546 | clean-up keeps an entry iff its input is outside every popup, and keeps it unchanged |
| PhoneField.Controller.constructor | assets/js/ddi-phone-field.js:15-28 | construction scans the document and starts both observers, with nothing disposed |
| PhoneField.Controller.GetPhoneField | assets/js/ddi-phone-field.js:514-516 | the lookup finds a handle iff the field is registered, and that handle is the registered one |
| PhoneField.Controller.InitSinglePhoneField | assets/js/ddi-phone-field.js:44-95 | attach skips marked or registered inputs, unmasks, registers the widget if construction succeeds, and applies the mask, listeners and popup handling |
| PhoneField.Controller.AttachEach | assets/js/ddi-phone-field.js:36-38 | the loop over a list of inputs ends in the state `AttachAll` describes, and the controller invariant holds |
| PhoneField.Controller.InitPhoneFields | assets/js/ddi-phone-field.js:33-39 | the scan attaches the inputs without the widget marker, in document order |
| PhoneField.Controller.OnPopupMutations | assets/js/ddi-phone-field.js:142-159 | the popup observer attaches every telephone input below each added element and returns the added popup modals |
| PhoneField.Controller.OnKeyPress | assets/js/ddi-phone-field.js:221-223 | a key press changes only that input's mask, as `AfterKeyPress` says |
| PhoneField.Controller.UpdateMaskForCountry | assets/js/ddi-phone-field.js:449-485 | popup inputs, and every input when the mask plugin is absent, keep their mask; others get the country's mask |
| PhoneField.Controller.OnCountryChange | assets/js/ddi-phone-field.js:431-444 | unregistered and popup inputs keep their mask; a registered input outside popups gets the country's mask |
| PhoneField.Controller.ShowError | assets/js/ddi-phone-field.js:335-347 | sets the error class and makes the first error node show the message, creating it only when none exists |
| PhoneField.Controller.ShowSuccess | assets/js/ddi-phone-field.js:352-361 | sets the success class, removes the error class and the first error node |
| PhoneField.Controller.ClearValidation | assets/js/ddi-phone-field.js:366-374 | removes both classes and the first error node |
| PhoneField.Controller.ValidateField | assets/js/ddi-phone-field.js:274-330 | the result is false iff the verdict is a rejection, and the container ends in the state the verdict names |
| PhoneField.Controller.OnInput | assets/js/ddi-phone-field.js:247-249 | typing clears the container's validation state |
| PhoneField.Controller.OnSubmit | assets/js/ddi-phone-field.js:252-268 | one listener set: it cancels the submission iff validation rejects; otherwise the value becomes the E.164 number only when `getNumber` exists and returns a non-empty string |
| PhoneField.Controller.OnBlurEvent | assets/js/ddi-phone-field.js:242-244 | a blur runs every accumulated listener set in the order the sets were added, each with its own widget; the container ends in `BlurSets` |
| PhoneField.Controller.OnSubmitEvent | assets/js/ddi-phone-field.js:252-268 | a submit runs every accumulated listener set in turn; the cancel flag, the field's value and its container are those of `SubmitSets` |
| PhoneField.Controller.ForceReinitPopupField | assets/js/ddi-phone-field.js:189-209 | forgets the entry, disposes its widget if it has `destroy`, and removes the widget classes and the mask |
| PhoneField.Controller.HandlePopupOpen | assets/js/ddi-phone-field.js:172-184 | removes `pattern` from and re-initialises each of the popup's inputs, as `ReinitAll` describes |
| PhoneField.Controller.DisposeAll | assets/js/ddi-phone-field.js:492-496 | disposes exactly the registered widgets that have `destroy` |
| PhoneField.Controller.ForceReinit | assets/js/ddi-phone-field.js:490-509 | empties the registry after disposing every widget; with the mask plugin it unmasks and unmarks every input and schedules a re-scan, without it the unguarded `unmask` throws and nothing else happens |
| PhoneField.Controller.Destroy | assets/js/ddi-phone-field.js:521-532 | empties the registry after disposing every widget, disconnects the popup observer and leaves the content observer connected |
| PhoneField.Controller.CleanupPopupFields | assets/js/ddi-phone-field.js:537-546 | deletes and disposes exactly the entries of popup inputs and keeps the rest |
| HostEvents.ReactionKinds | assets/js/ddi-phone-field.js:559-608 | popup show and open schedule only a full re-initialisation; hide, close, the close button and Escape schedule only a clean-up; other events schedule nothing |
| HostEvents.ReactionDelays | assets/js/ddi-phone-field.js:559-608 | re-initialisation waits 300 ms after show and 500 ms after open; clean-up runs at once on hide and close and after 100 ms otherwise |
| HostEvents.IntegrationDoublesShowAndHide | assets/js/elementor-integration.js:68-80 | with the integration loaded, show and hide each schedule their action twice |
| HostEvents.OnlyEscapeKeyReacts | assets/js/ddi-phone-field.js:600-608 | of all key presses only Escape schedules anything |
| HostEvents.Page.ReadyController | assets/js/ddi-phone-field.js:550-556 | the ready callback creates the controller iff none exists, and otherwise keeps the existing one |
| HostEvents.Page.ReadyIntegration | assets/js/elementor-integration.js:186-193 | the integration is created only once |
| HostEvents.Page.Run | assets/js/elementor-integration.js:178-182 | an action is skipped when no controller exists. Otherwise a forced re-initialisation empties the registry, disposes every widget with `destroy`, and (with the mask plugin) unmasks and unmarks every input and schedules a re-scan. A clean-up deletes and disposes exactly the popup entries and leaves the inputs alone. Neither action touches the two observers |
| PageBuilderForms.Checked | assets/js/elementor-integration.js:44-52 | a checked field has exactly one of the two classes, the one the check names, and nothing else changes |
| PageBuilderForms.Unchecked | assets/js/elementor-integration.js:63-65 | both validation classes are removed and nothing else changes |
| PageBuilderForms.Blurred | assets/js/elementor-integration.js:101-116 | blur clears both classes for an empty value and otherwise leaves exactly the class the pattern names |
| PageBuilderForms.Stripped | assets/js/elementor-integration.js:96-98 | `pattern`, `title` and `data-rule-phone` are removed and nothing else changes |
| PageBuilderForms.BlurAgreesWithSubmit | assets/js/elementor-integration.js:101-116 | on a non-empty value blur and submit mark the field the same way, invalid iff the value fails |
| PageBuilderForms.BlurIdempotent | assets/js/elementor-integration.js:150-165 | a blur handler added twice ends in the same state as one |
| PageBuilderForms.PassingValueMatchesRegular | assets/js/elementor-integration.js:43 | a value the page-builder check lets through passes the controller's regular pattern |
| PageBuilderForms.SubmitAllAt | assets/js/elementor-integration.js:37-54 | checking a form marks each of its fields once, from its own value, and leaves other fields alone |
| PageBuilderForms.AnyOfIff | assets/js/elementor-integration.js:35-45 | the accumulated error flag is set iff some field of the form fails |
| PageBuilderForms.Document.OnSubmit | assets/js/elementor-integration.js:33-60 | submission is cancelled iff a field of the form has a non-empty trimmed value the pattern refuses; each form field is marked by its own check |
| PageBuilderForms.Document.CheckField | assets/js/elementor-integration.js:39-53 | one field's check reports failure iff the value fails, and marks only that field |
| PageBuilderForms.Document.OnInput | assets/js/elementor-integration.js:119-121 | typing removes both classes of that field only |
| PageBuilderForms.Document.OnBlur | assets/js/elementor-integration.js:101-116 | blur updates only that field, as `Blurred` says |
| PageBuilderForms.Document.StripAttributes | assets/js/elementor-integration.js:92-98 | every input of the scope loses the three attributes; other inputs are unchanged |
| ContactForm.ControlClass | includes/cf7/class-cf7-integration.php:52-56 | the not-valid class is appended iff there is a validation error |
| ContactForm.RenderTag | includes/cf7/class-cf7-integration.php:43-104 | no markup iff the name is empty; otherwise the class carries the not-valid class and `aria-invalid` is `true` iff there is an error; `readonly` and `aria-required` are set iff their option is; with `placeholder`/`watermark` the first value becomes the placeholder and the value starts empty; type, name, pattern and title are fixed |
| ContactForm.InvalidMarkingAgrees | includes/cf7/class-cf7-integration.php:54-72 | `aria-invalid="true"` and the not-valid class go together, exactly when there is a validation error |
| ContactForm.IsValidPhoneIff | includes/cf7/class-cf7-integration.php:255-263 | the server check accepts exactly the non-empty strings of digits, ASCII white space and `( ) - + . # * & =` |
| ContactForm.PostedValueUnslashes | includes/cf7/class-cf7-integration.php:238 | the validated value is the trimmed value the browser sent |
| ContactForm.InvalidationCases | includes/cf7/class-cf7-integration.php:240-246 | at most one invalidation: required and empty gives the required message, non-empty and refused gives the format message, and none otherwise |
| ContactForm.MissingFieldIsEmpty | includes/cf7/class-cf7-integration.php:238-242 | a missing field counts as empty: refused if required, accepted otherwise |
| ContactForm.BlankValueIsEmpty | includes/cf7/class-cf7-integration.php:238 | a value of only trimmed characters is validated as empty |
| ContactForm.ValidationResult.Invalidate | includes/cf7/class-cf7-integration.php:241 | records one more invalidation after the earlier ones |
| ContactForm.ValidatePhoneField | includes/cf7/class-cf7-integration.php:234-249 | appends exactly the invalidations `Invalidations` lists for the posted value |
| Checkout.Marked | includes/woocommerce/class-woocommerce-integration.php:76-80 | a marked field has type `tel`, the phone classes and attributes, and every other setting unchanged |
| Checkout.MarkAt | includes/woocommerce/class-woocommerce-integration.php:98-104 | only a set entry is marked; an absent key is not created and other keys are unchanged |
| Checkout.MarkIn | includes/woocommerce/class-woocommerce-integration.php:75-81 | only a set nested entry is marked; other groups are unchanged |
| Checkout.ModifyCheckoutFields | includes/woocommerce/class-woocommerce-integration.php:74-92 | the filter marks the billing phone and then the shipping phone |
| Checkout.ModifyAccountFields | includes/woocommerce/class-woocommerce-integration.php:97-107 | the filter marks the top-level `billing_phone` |
| Checkout.ModifyRegisterFields | includes/woocommerce/class-woocommerce-integration.php:112-122 | the filter marks the top-level `phone` |
| Checkout.CheckoutFieldsMarked | includes/woocommerce/class-woocommerce-integration.php:74-92 | both phones are marked when set, neither is created when absent, and every other group and key is unchanged |
| Checkout.MarkedIdempotent | includes/woocommerce/class-woocommerce-integration.php:76-80 | marking twice is marking once |
| Checkout.MarkAtIdempotent | includes/woocommerce/class-woocommerce-integration.php:97-122 | the account and register filters are idempotent |
| Checkout.CheckoutIdempotent | includes/woocommerce/class-woocommerce-integration.php:74-92 | the checkout filter is idempotent |
| Checkout.ValidatorsAgree | includes/woocommerce/class-woocommerce-integration.php:170-178 | the store's phone check accepts exactly what the contact-form check accepts |
| AdminSettings.ScanWidthCorrect | assets/js/admin.js:187 | a left-to-right recogniser accepts exactly the widths the pattern matches |
| AdminSettings.ScanWidthSound | assets/js/admin.js:187 | whatever the recogniser accepts, the pattern matches |
| AdminSettings.ScanWidthComplete | assets/js/admin.js:187 | whatever the pattern matches, the recogniser accepts |
| AdminSettings.AcceptedWidths | assets/js/admin.js:185-189 | `100%`, `300px`, `1.5rem`, `auto` and `inherit` are valid |
| AdminSettings.RefusedWidths | assets/js/admin.js:187 | `100`, `.5px`, `1.px`, `100PX` and a width followed by a line break are refused |
| AdminSettings.MatchShape | assets/js/admin.js:187 | a matched width starts with a digit and ends with the last letter of a unit |
| AdminSettings.BlankWidthNeverBlocks | assets/js/admin.js:46-56 | an empty or blank width never blocks the settings form |
| AdminSettings.BlockedMeansInvalid | assets/js/admin.js:46-56 | the form is blocked iff the width is not blank and its trimmed text is not a valid width; surrounding blanks never change this |
| AdminSettings.KindOf | assets/js/admin.js:169-175 | a picker is a border picker iff its name contains `border_color`, else dial-code iff `ddi_color`, else background iff `bg_color` |
| AdminSettings.LastColorSpec | assets/js/admin.js:165-176 | a colour is missing iff no picker has that kind; otherwise it is the colour of the last picker of that kind |
| AdminSettings.Preview.GetCurrentSettings | assets/js/admin.js:155-179 | the settings are the width field's value and, for each colour, the last matching picker's colour |
| AdminSettings.Preview.UpdatePreview | assets/js/admin.js:130-150 | each style is set only when its setting is a non-empty string, and otherwise keeps its old value |
| Loader.Block | includes/core/class-loader.php:102-106 | a block always holds more than the escaped value it embeds |
| Loader.DynamicCssParts | includes/core/class-loader.php:101-131 | the CSS is the width, border, dial-code and flag-background blocks, each present iff its option is not empty in PHP's sense |
| Loader.DynamicCssEmptyIff | includes/core/class-loader.php:133-135 | the CSS is empty iff all four options are empty, so inline CSS is added iff one of them is set |
| Loader.CssOverPrefix | includes/core/class-loader.php:101-131 | CSS built over a prefix of the settings is a prefix of the full CSS |
| Loader.BlocksInOrder | includes/core/class-loader.php:101-131 | the blocks appear in the order width, border, dial code, flag background |
| Loader.OnlyEscapedValues | includes/core/class-loader.php:104-128 | stored values reach the CSS only through `esc_attr` |
| Loader.BuildDynamicCss | includes/core/class-loader.php:99-131 | the accumulated CSS is `DynamicCss` of the options |
| Loader.Assets.EnqueueFrontendScripts | includes/core/class-loader.php:30-75 | enqueues the two styles and four scripts in order, then the inline CSS |
| Loader.Assets.AddDynamicCss | includes/core/class-loader.php:97-136 | the CSS is attached to the plugin's style iff it is not empty; inline CSS only ever goes on an enqueued style |
| Loader.Assets.EnqueueAdminScripts | includes/core/class-loader.php:80-92 | the colour picker and the admin script are enqueued iff the hook suffix is the settings page's |

## Left out

- Timers: `setTimeout` delays appear only as numbers in the host-event table. A delayed step is a separate method call.
- MutationObserver delivery: the observer callbacks take a batch of records as a parameter.
- The widget library and the mask plugin are oracles. Country data, the `isValidNumber` answer, E.164 formatting and how a mask rewrites text are parameters or left out.
- `handlePopupField` (assets/js/ddi-phone-field.js:107-135): only the marker class and the removal of `pattern` are modelled. Its z-index, `stopPropagation` and dropdown-opening wiring are DOM plumbing.
- The `onComplete` callbacks that trigger `change` on popup fields are left out; they are DOM events with no state of their own.
- Console logging is left out.
- A submit listener exists only for an input inside a form. `OnSubmit` models the listener once bound and does not model the `closest('form')` check.
- PhoneField.Controller.OnSubmitEvent: only the listener sets of the one field are run. The sets of the form's other phone fields also run on the same submit, interleaved in attach order; the model does not interleave them.
- PhoneField.Controller.OnInput: one set's `clearValidation` is modelled. With several sets it runs once per set, which ends in the same state because a container holds at most one error node (`BlurKeepsOneNode`, `SuccessAndClearRemoveError`).
- `intlTelInputUtils` may be missing. The resulting exception inside the submit handler is the empty `e164` case: the value is left alone.
- ContactForm.RenderTag: the attribute array is built in one record expression, not assignment by assignment. The model does not capture `wpcf7_format_atts`, the HTML string, attribute order or `esc_html__` translation.
- The contact-form tag generator and the settings-page renderers are HTML output.
- The e-commerce register field markup and its inline script are HTML and JavaScript output.
- The order-details echo and the `save_*` database writes are I/O.
- Checkout.ModifyCheckoutFields, ModifyAccountFields, ModifyRegisterFields: a set phone entry must be an array. Writing into a string offset or a scalar raises a PHP error, which is not modelled.
- Loader.OptionValue: option values are strings. Non-string values stored in the option are not modelled.
- Loader.Assets.EnqueueFrontendScripts: dependency and version arguments, and the source URLs, are not modelled.
- AdminSettings.Preview.GetCurrentSettings: a picker without a `name` attribute makes `name.includes` throw. The model assumes every picker has a name.
- AdminSettings.Preview.GetCurrentSettings: the width field's `val()` is a string whenever the field exists.
- AdminSettings.SubmitBlocked: the width is always a string. When the page has no width field, `widthField.val()` is undefined and `.trim()` throws (assets/js/admin.js:47-48), so the form is submitted unblocked; the model does not capture that case.
- PhoneField.Input: `container` is one `Wrapper` for the input's whole life. The source recomputes it on every call as `field.closest('.iti') || field.parentElement` (assets/js/ddi-phone-field.js:283, 290, 299, 367). A widget's `destroy()` removes its `.iti` wrapper, and a new construction creates a fresh one. So after `forceReinitPopupField` or `forceReinit` and a re-attach, the source validates against a new container with no classes and no error node, and an input whose re-attach failed validates against its parent element. The model keeps the old classes and node on the same `Wrapper`.
- ContactForm.ValidationResult.Invalidate: the result is an append-only list of (name, message) pairs. The form plugin's result object keeps only the first reason per field name. Nothing changes for `ValidatePhoneField`, which records at most one invalidation per call (`InvalidationCases`).
- AdminSettings.KindOf: the model does not prove how the settings page's three actual picker names are classified.
- The preview widget construction and the colour-picker change wiring (assets/js/admin.js:31-40, 89-125) are DOM and library calls.
- The alert and focus on a blocked settings submit are UI side effects.
- Bootstrap, hook registration and activation defaults (ddi-phone-field.php, includes/elementor/class-elementor-integration.php) are wiring.
- The page-builder widget (includes/elementor/widgets/class-phone-field-widget.php) is rendering.
- jQuery's removal of the page builder's own `blur.elementorValidation` and `input.elementorValidation` handlers (assets/js/elementor-integration.js:146-147) is left out; the model has no handlers of the page builder's own.
