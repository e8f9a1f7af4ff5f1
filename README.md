# Stratek site: contact, quote, mail, PDF and chat logic in Dafny

This project models the logic of the Stratek web site: its Express back ends, its mail services, its PDF sheets and the browser scripts of its pages.

**Back ends**
- `server.js` serves `/api/contact`, `/api/quote` and `/api/chat`.
- `app.js` serves the variant of `/api/contact` that mails through the provider chain.
- `src/api/server.js` keeps an in-memory store of project inquiries.
- `src/api/api.js` serves the chat route with local answers as a fallback.

**Mail services**
- Gmail only (`utils/emailService.js`).
- SendGrid, then Gmail (`utils/emailServiceAdvanced.js`).
- SendGrid, then Mailgun, then Gmail (`src/api/utils/emailService-sendgrid.js`).

**PDF sheets**
- The contact sheet and the quote sheet (`utils/pdfGenerator.js`).

**Browser side**
- The chat widget (`src/components/js/chatbot.js`).
- The static page scripts (`js/main.js`, `js/main-fixed.js`, `js/theme.js`).
- The React site's page scripts (`src/components/js/main-fixed.js`, `src/components/js/main-clean.js`) and its contact component (`src/components/Contact.jsx`).

Everything outside the program is a parameter of the model:
- what a mail provider, the OpenAI API, the PDF renderer or `fetch` does;
- the clock;
- the environment variables;
- local storage.

Each handler returns what it answers together with the external calls it made. This lets the contracts say "nothing is done before validation" and "no provider after the one that delivered".

Mail bodies and PDF sheets are sequences of content blocks (rows, alert, message box, links, notes), not markup.

Shared pieces:
- `Wrappers` holds `Option` and `Result`.
- `JsText` holds the JavaScript string built-ins the code relies on (`trim`, `includes`, `toLowerCase`, `replace`, `slice`, `split`/`join`, number printing).
- `EmailPattern` holds the `/^[^\s@]+@[^\s@]+\.[^\s@]+$/` test used by six files.
- `KeywordDispatch` holds the first-match keyword responders.
- `MailCommon` holds the subject, priority, file name and body shared by the three mail services.
- `ProviderChain` holds the try-in-order mail chain.
- `ClientForm` holds what the page scripts share.

## Model

| member | source | states |
|---|---|---|
| EmailPattern.IsValidEmail | server.js:175-176 | the test accepts a string exactly when the whole-string pattern (one `@`, a `.` at least one character after it, no whitespace, no empty run) matches it |
| EmailPattern.ValidEmailIffPattern | js/main.js:662-666 | the `@`/`.` scan decides exactly the pattern: accepted iff the first `@` is not at the start, the rest has no `@`, and a `.` lies strictly inside the part after it |
| EmailPattern.MatchFacts | js/main.js:662-666 | a match puts the first `@` at the match's `@`, no whitespace anywhere, no second `@`, and a `.` strictly inside the part after it |
| EmailPattern.IndexOf | server.js:175-176 | the first occurrence: none iff the character is absent, otherwise it is there and not earlier |
| JsText.Trim | js/main.js:592-611 | `trim` never lengthens the string |
| JsText.TrimStartFacts | js/main.js:592-611 | dropping leading whitespace leaves a suffix that does not start with whitespace, and everything dropped was whitespace |
| JsText.TrimEndFacts | js/main.js:592-611 | dropping trailing whitespace leaves a prefix that does not end with whitespace, and everything dropped was whitespace |
| JsText.TrimFacts | js/main.js:592-611 | `trim` gives a piece of the string, empty exactly for whitespace-only input, and never starting or ending in whitespace |
| JsText.Show | utils/emailService.js:225-257 | a present string prints as itself |
| JsText.EnvVar | src/api/utils/emailService-sendgrid.js:11 | a variable is read exactly when it is set, with its value |
| JsText.ToUpper | utils/pdfGenerator.js:182 | `toUpperCase` upper-cases each character in turn; `ß` becomes "SS", so the result is one character longer per `ß`, and a text without `ß` keeps its length character by character |
| JsText.ToUpperAppend | utils/pdfGenerator.js:182 | upper-casing a concatenation upper-cases each part, so order is kept |
| JsText.NatToString | utils/emailService.js:92 | a number prints as at least one decimal digit, without a leading zero unless it is zero |
| JsText.IntToString | utils/emailService.js:92 | a whole number prints as at least one character, with a minus sign exactly when negative |
| JsText.CollapseSpaceRuns | utils/emailService.js:66 | `replace(/\s+/g, '_')` leaves no whitespace, never lengthens, is the identity on strings without whitespace, and is empty only for the empty string |
| JsText.TakeLast | src/components/js/chatbot.js:583-585 | `slice(-n)` keeps min(n, length) elements, and they are the string's suffix |
| JsText.SliceFromEndIsTakeLast | src/components/js/chatbot.js:609 | `slice(-n, length)` with JavaScript's negative-index rule is the same as keeping the last n elements |
| JsText.SliceIndex | src/api/server.js:88 | `slice` arguments: negatives count from the end, everything clamped into [0, length] |
| JsText.NatToStringRoundTrip | utils/emailService.js:92 | printing a number in decimal loses nothing: reading the digits back gives the number |
| JsText.LeadingDigits | src/api/server.js:84 | the longest run of digits that starts the string: all digits, and the character after it is not one |
| JsText.LeadingDigitsAll | src/api/server.js:84 | a string of digits only is read whole |
| JsText.ParseDigits | src/api/server.js:84 | no number when the text does not start with a digit |
| JsText.ParseInt | src/api/server.js:84-85 | `parseInt`: `NaN` for blank text and for text that starts with anything but whitespace, a sign or a digit; a negative result only after a leading minus sign |
| JsText.ParseDigitsRoundTrip | src/api/server.js:84 | the digits of a printed number read back as the number |
| JsText.ParseIntRoundTrip | src/api/server.js:84 | `parseInt` reads back exactly the whole number that `${i}` prints, sign included |
| JsText.JoinSplit | js/main-fixed.js:449 | `split('\|')` loses nothing: joining the pieces with the separator gives back the attribute |
| JsText.Split | js/main-fixed.js:449 | at least one piece, no piece contains the separator, and the first piece starts the string |
| JsText.ToLower | src/components/js/chatbot.js:342 | `toLowerCase` keeps the length and lowers each character |
| JsText.ReplaceChar | utils/pdfGenerator.js:191 | `replace(/\n/g, '<br>')` removes every newline and keeps every other character |
| JsText.Prefix | js/main-fixed.js:459-462 | `substring(0, n)` is a prefix whose length is n clamped to the string |
| ContactData.Validate | server.js:170-178 | rejected for missing fields iff name, e-mail or message is absent or empty; rejected for the e-mail iff those are present and the e-mail fails the pattern; otherwise the normalised submission, whose e-mail matches |
| ContactData.Normalize | server.js:188-198 | the Spanish fields become the English ones, none dropped or altered |
| ContactServer.HandleContact | server.js:164-249 | a rejected form gets 400 and no call is made; an accepted one renders the PDF first, mails only when the PDF exists and a transporter is held; the reply's flags say which steps succeeded, and its error list is absent exactly when all did and otherwise is exactly `ContactErrors` |
| ContactServer.ContactErrors | server.js:205-228 | the error list is empty exactly when the PDF, the transporter and the send all succeed; otherwise the PDF error is present exactly when rendering failed and then first, "not configured" exactly when mail was skipped, and the send error exactly when a send failed |
| ContactServer.HandleQuote | server.js:252-313 | name, e-mail and service are required (400 otherwise, nothing done); a service the table cannot price (an inherited name) ends in 500 with nothing done; otherwise the reply carries the calculated quote, and the quote is mailed only after its PDF succeeds and when a transporter exists |
| ContactServer.QuoteSubmission | server.js:267-274 | the quote endpoint forwards name, e-mail, phone, service, budget and message, and never company, timeline or priority |
| ContactServer.QuotePdfDefaultDelivery | server.js:279-283 | because the quote endpoint drops the timeline, its PDF always promises the default delivery time |
| ContactServer.FilterMessage | server.js:121-124 | the role is kept when it is system, user or assistant and is `user` otherwise; the content is cut to at most 2000 characters, kept whole when shorter, and empty when not a string |
| ContactServer.FilterMessages | server.js:121-124 | one filtered message per posted message, in order |
| ContactServer.HandleChat | server.js:101-160 | a missing array gets 400; no OpenAI client gets 503 with fallback; more than 50 messages get 400 "Too many messages in conversation"; otherwise the completion is requested with the filtered messages, a completed request answers with its content, and a failed one gets `CompletionError` of its code |
| ContactServer.CompletionError | server.js:141-158 | `insufficient_quota` gives 503 with fallback, `rate_limit_exceeded` gives 429 with a 60-second retry and no fallback, any other code 500 with fallback; each with its error text |
| QuoteCalculator.Lookup | server.js:316-362 | a table key gets its own tier; a name every object inherits (`constructor`, `toString`, `__proto__`, ...) finds no tier, because the lookup succeeds on the prototype and skips the fallback; any other name gets the web-development tier |
| QuoteCalculator.MultiplierTenths | server.js:365-370 | 1.3 exactly for the top budget, 1.1 exactly for the middle one, and 1.0 for anything else |
| QuoteCalculator.RoundHalfUp | server.js:374 | `Math.round` of a non-negative quotient: the nearest integer, halves rounded up |
| QuoteCalculator.AdjustItems | server.js:372-375 | every item keeps its name and its price is scaled by the multiplier and rounded |
| QuoteCalculator.CalculateQuote | server.js:316-387 | no quote exactly when the lookup finds no tier (`quote.items.map` throws); otherwise the quote names the requested service, carries the tier's base price and the multiplier, its items are exactly the tier's items adjusted by the multiplier, and its total is their sum |
| QuoteCalculator.AdjustedSumExact | server.js:372-377 | for prices that are multiples of ten, the rounded items add up to exactly the base sum times the multiplier |
| QuoteCalculator.TableConsistent | server.js:318-360 | in every tier the item prices add up to the base price and are multiples of ten |
| QuoteCalculator.WebTierConsistent | server.js:318-325 | web development's items add up to its base of 800, in multiples of ten |
| QuoteCalculator.AITierConsistent | server.js:326-333 | AI integration's items add up to its base of 1200, in multiples of ten |
| QuoteCalculator.PwaTierConsistent | server.js:334-342 | progressive web apps' items add up to its base of 1500, in multiples of ten |
| QuoteCalculator.ShopTierConsistent | server.js:343-351 | e-commerce's items add up to its base of 2000, in multiples of ten |
| QuoteCalculator.ConsultingTierConsistent | server.js:352-359 | consulting's items add up to its base of 400, in multiples of ten |
| QuoteCalculator.RoundTensExact | server.js:374 | rounding a whole number of tenths that is a multiple of ten loses nothing |
| QuoteCalculator.TotalIsScaledBase | server.js:362-377 | for every name that is not inherited there is a quote, and its total is exactly the base price times the multiplier: no rounding is ever lost |
| QuoteCalculator.UnknownServiceFallsBack | server.js:362 | a name that is neither a table key nor inherited is priced from the 800 base, yet keeps its own name in the quote |
| PdfGenerator.PriorityClass | utils/pdfGenerator.js:182 | as written: `priority-` followed by the priority lower-cased, character by character |
| PdfGenerator.FormPrioritiesUnstyled | utils/pdfGenerator.js:125-182 | as written, none of Alta, Media and Baja gets one of the classes the stylesheet colours |
| PdfGenerator.StyledPriorityClass | utils/pdfGenerator.js:125-182 | corrected: Alta, Media and Baja get `priority-high`, `-medium` and `-low`, all styled; any other text keeps the template's class |
| PdfGenerator.StyledClassChangesFormPriorities | utils/pdfGenerator.js:125-182 | the corrected class differs from the written one exactly for the form's priorities |
| PdfGenerator.PriorityRows | utils/pdfGenerator.js:179-185 | the priority row is present exactly when a priority was given, upper-cased, with the styled class (see Findings) |
| PdfGenerator.MessageSection | utils/pdfGenerator.js:187-194 | the message box is present exactly when a message was given, newlines as `<br>` |
| PdfGenerator.UrgentSection | utils/pdfGenerator.js:196-200 | the urgent banner is present exactly for priority `Alta` |
| PdfGenerator.SheetRows | utils/pdfGenerator.js:149-177 | the seven client and project rows are present, each showing the value or "No especificado" |
| PdfGenerator.ContactFormSheet | utils/pdfGenerator.js:17-216 | the contact sheet starts with the STRATEK header and the date, and holds every client and project row |
| PdfGenerator.ContactSheetPriority | utils/pdfGenerator.js:179-185 | in the whole sheet, a priority row appears iff a priority was given, upper-cased with its styled class |
| PdfGenerator.ContactSheetMessage | utils/pdfGenerator.js:187-194 | in the whole sheet, a message box appears iff a message was given |
| PdfGenerator.ContactSheetUrgent | utils/pdfGenerator.js:196-200 | in the whole sheet, the urgent banner appears iff the priority is `Alta` |
| PdfGenerator.BreakdownRows | utils/pdfGenerator.js:292-297 | one breakdown row per quote item, in order, with its name and price |
| PdfGenerator.QuoteSheet | utils/pdfGenerator.js:218-320 | the quote sheet shows the total and the delivery time, defaulting to 2-4 weeks |
| PdfGenerator.QuoteSheetBreakdown | utils/pdfGenerator.js:291-299 | the sheet's breakdown lines are exactly one row per quote item, in the quote's order |
| PdfGenerator.SheetFooter | utils/pdfGenerator.js:201-212 | the contact sheet closes with notes only |
| PdfGenerator.ItemRowsConcat | utils/pdfGenerator.js:290-297 | picking out the breakdown rows distributes over the parts of a sheet |
| Document.ItemRows | utils/pdfGenerator.js:290-297 | the breakdown rows picked from a sheet are rows of that sheet |
| MailCommon.FieldValue | utils/emailService.js:225-257 | a row shows the value when it is non-empty and "No especificado" otherwise |
| MailCommon.PriorityText | utils/emailService.js:56 | `priority \|\| 'Media'` |
| MailCommon.PriorityEmoji | utils/emailService.js:49-57 | red exactly for Alta, green exactly for Baja, yellow for every other priority text that is not an inherited property name (see Left out) |
| MailCommon.StyleOf | utils/emailService.js:114-121 | the Alta and Baja styles exactly for those priorities, the Media style for every other that is not an inherited property name (see Left out) |
| MailCommon.ContactSubject | utils/emailService.js:62 | the subject is the emoji, the fixed lead, the name (or "Cliente") and the fixed tail, in that order |
| MailCommon.NameSlug | utils/emailService.js:66 | the file-name slug has no whitespace and is never empty: "Cliente" without a name, whitespace runs as `_` otherwise |
| MailCommon.DatePart | utils/emailService.js:66 | the date part is a prefix of the ISO timestamp without a `T` |
| MailCommon.AttachmentName | utils/emailService.js:66 | the file name is the prefix, then the slug, and ends in `.pdf` |
| MailCommon.ContactMail | utils/emailService.js:58-70 | the contact message has the priority subject, no copy, the contact body, and the PDF attached exactly when there is one |
| MailCommon.InfoRows | utils/emailService.js:225-257 | the ten client and project rows, the priority row showing `priority \|\| 'Media'` |
| MailCommon.ButtonBlocks | utils/emailServiceAdvanced.js:394-397 | the reply button first when the service has buttons; the call button always (Gmail service), only with a phone (advanced service), never (SendGrid service) |
| MailCommon.ContactEmailBody | utils/emailService.js:112-285 | the body is styled for its priority, with the header first and the footnote last |
| MailCommon.ContactAttachmentName | utils/emailService.js:66 | the contact attachment's name starts with `Solicitud_Contacto_` and ends in `.pdf` |
| MailCommon.ContactEmailAlert | utils/emailService.js:217-223 | the body carries the priority alert exactly when the priority is Alta |
| MailCommon.ContactEmailMessage | utils/emailService.js:259-264 | the body has a message box exactly when a message was given |
| MailCommon.ContactEmailMessageText | utils/emailService.js:259-264 | a given message is shown with its line breaks as `<br>` |
| MailCommon.ContactEmailRowsAndButtons | utils/emailService.js:225-272 | every information row and every button of the service is in the body |
| MailCommon.ContactEmailCallButton | utils/emailService.js:266-272 | the body has a call button exactly when the service's buttons include one |
| MailCommon.AlertBlocks | utils/emailService.js:215-220 | the priority alert exactly for `Alta` |
| MailCommon.MessageBlocks | utils/emailService.js:261-266 | the message box, newlines as `<br>`, exactly when a message was given |
| EmailService.QuoteSubject | utils/emailService.js:92 | the quote subject starts with the money-bag emoji and is exactly as long as its fixed parts, the name and the printed total |
| EmailService.QuoteSubjectName | utils/emailService.js:92 | the client's name, or "Cliente", can be read back from the subject right after the fixed lead |
| EmailService.QuoteSubjectTotal | utils/emailService.js:92 | the printed total can be read back from the subject after " - €", followed only by the fixed tail |
| EmailService.QuoteLetter | utils/emailService.js:287-354 | the quote letter is addressed to the client by name and shows the total |
| EmailService.QuoteMail | utils/emailService.js:83-111 | the quote message is copied to the client, has the total in its subject and one attachment named `Presupuesto_…` |
| EmailService.GmailService.constructor | utils/emailService.js:4-35 | a transporter, with its connection check pending, exactly when both credentials are set |
| EmailService.GmailService.SettleVerification | utils/emailService.js:27-34 | a failed check drops the transporter; a passed one keeps it |
| EmailService.GmailService.SendContactFormEmail | utils/emailService.js:37-81 | no transporter fails with "not configured"; otherwise the send's outcome, with the PDF attached |
| EmailService.GmailService.SendQuoteEmail | utils/emailService.js:83-111 | the same gate, then the quote message |
| EmailService.ContactMailHasCallLink | utils/emailService.js:268-275 | the Gmail-only notification always carries the call button, phone or not |
| EmailService.LoadAsWritten | utils/emailService.js:3-35 | as written, loading the module throws exactly when both credentials are set, and otherwise the service holds no transporter: no environment gives a usable service |
| EmailService.CredentialsBreakLoading | utils/emailService.js:15 | with both credentials set, loading the module throws |
| ProviderChain.Attempts | src/api/utils/emailService-sendgrid.js:53-172 | the providers tried are a prefix of the order; all but the last refused; a shorter prefix ends with one that delivered |
| ProviderChain.Winner | src/api/utils/emailService-sendgrid.js:53-172 | some provider delivers iff one in the order works, and it is in the order and works |
| ProviderChain.WinnerEndsAttempts | src/api/utils/emailService-sendgrid.js:75-101 | the provider that delivers is the last one tried, and none is tried after it |
| ProviderChain.AttemptsCons | utils/emailServiceAdvanced.js:83-104 | a chain is its head, then the rest only when the head refuses |
| ProviderChain.ChainOrder | src/api/utils/emailService-sendgrid.js:5-51 | a provider is in the chain exactly when it is configured |
| ProviderChain.ChainOrderRanked | src/api/utils/emailService-sendgrid.js:53-172 | the chain keeps the fixed order SendGrid, Mailgun, Gmail |
| ProviderChain.ChainOrderSplit | src/api/utils/emailService-sendgrid.js:73-171 | the chain is its first configured provider, if any, followed by the chain of the later ones |
| ProviderChain.SendGridWins | src/api/utils/emailService-sendgrid.js:75-101 | a configured, working SendGrid is the only provider tried |
| ProviderChain.MailgunWins | src/api/utils/emailService-sendgrid.js:110-132 | a working Mailgun is reached only after a failed SendGrid, and ends the chain |
| ProviderChain.ChainFails | src/api/utils/emailService-sendgrid.js:141-171 | when SendGrid and Mailgun do not deliver, Gmail alone decides |
| EmailServiceSendGrid.SendGridService.constructor | src/api/utils/emailService-sendgrid.js:5-51 | each provider is configured exactly when its credentials are set |
| EmailServiceSendGrid.SendGridService.SendContactFormEmail | src/api/utils/emailService-sendgrid.js:53-172 | the providers are tried in chain order until one delivers; success names that provider; failure says "all failed" with Gmail configured and "none configured" otherwise |
| EmailServiceSendGrid.SendGridService.TryProviders | src/api/utils/emailService-sendgrid.js:73-171 | the same try-in-order loop, stated against `Attempts` and `Winner` |
| EmailServiceSendGrid.SendGridService.TryAfterSendGrid | src/api/utils/emailService-sendgrid.js:109-171 | once SendGrid was skipped or refused, Mailgun and then Gmail finish the same chain |
| EmailServiceSendGrid.SendGridService.TryGmail | src/api/utils/emailService-sendgrid.js:140-171 | once SendGrid and Mailgun were skipped or refused, Gmail alone decides: delivered, "All email services failed", or "No email service configured" |
| EmailServiceSendGrid.AllFailedMeansAllTried | src/api/utils/emailService-sendgrid.js:141-171 | a failure with Gmail configured means every configured provider was tried and refused |
| EmailServiceAdvanced.AdvancedService.constructor | utils/emailServiceAdvanced.js:5-19 | SendGrid is available exactly when its key is set and accepted; a Gmail transporter is pending exactly when both credentials are set |
| EmailServiceAdvanced.AdvancedService.InitializeSendGrid | utils/emailServiceAdvanced.js:25-38 | SendGrid becomes available only when the key is set and `setApiKey` does not throw |
| EmailServiceAdvanced.AdvancedService.InitializeNodemailer | utils/emailServiceAdvanced.js:40-81 | with credentials a transporter is created and its check is pending; without them nothing changes |
| EmailServiceAdvanced.AdvancedService.SettleVerification | utils/emailServiceAdvanced.js:62-80 | a passed check makes Gmail available; a failed or timed-out one drops the transporter |
| EmailServiceAdvanced.AdvancedService.GetAvailableServices | utils/emailServiceAdvanced.js:413-420 | the report mirrors both flags, and some service is reported exactly when there is a provider to try |
| EmailServiceAdvanced.AdvancedService.SendContactFormEmail | utils/emailServiceAdvanced.js:83-104 | SendGrid first, then Gmail; success names the provider that delivered; failure carries Gmail's error, or "no service available" when Gmail is not available |
| EmailServiceAdvanced.AdvancedService.TryProviders | utils/emailServiceAdvanced.js:83-104 | the same try-in-order loop, stated against `Attempts` and `Winner` |
| EmailServiceAdvanced.GmailOnlyAfterSendGrid | utils/emailServiceAdvanced.js:85-91 | with SendGrid available and working, Gmail is never tried |
| EmailServiceAdvanced.NoServiceNoSend | utils/emailServiceAdvanced.js:101-103 | nothing can ever be sent exactly when neither service is available |
| EmailServiceAdvanced.LoadAsWritten | utils/emailServiceAdvanced.js:5-80 | as written, construction throws exactly when both Gmail credentials are set; otherwise Gmail is unavailable and SendGrid is available exactly when its key is set and accepted |
| EmailServiceAdvanced.GmailCredentialsBreakConstruction | utils/emailServiceAdvanced.js:46 | with the Gmail credentials set, construction throws even though SendGrid was accepted |
| AppServer.PdfStep | app.js:55-63 | a value comes back only from a method of the generator that needs no quote; a method that reads `this` and is called on its own, and a renderer whose library fails, give none; the contact-sheet method called on the instance gives a PDF exactly when rendering succeeds |
| AppServer.HandleContact | app.js:20-94 | with `generateContactFormPDF` called on the exported instance: a rejected form gets 400 and nothing is offered to the providers; otherwise the PDF exists and is attached exactly when rendering succeeds, the providers are tried in order, and the reply says whether and through which provider the mail went |
| AppServer.HandleContactAsWritten | app.js:55-63 | as written, no PDF is ever generated or attached, whatever the renderer would do |
| AppServer.HandleWith | app.js:20-94 | a rejected form gets 400 and nothing is offered; otherwise the thanks, the contact mail with a PDF exactly when `PdfStep` gives one, the providers tried in chain order, and `emailSent` exactly when one delivered |
| AppServer.AsWrittenPdfNeverGenerated | app.js:58-59 | the destructured name is not a method, so step 1 always fails; destructuring `generateContactFormPDF` fails too, because it reads `this`; called on the instance it works exactly when rendering does |
| AppServer.OptionsNotCallable | app.js:58-59 | the generator's `options` is not a function, so reaching it gives no PDF |
| InquiryStore.Store.constructor | src/api/server.js:22-24 | the store starts empty with the counter at 1 |
| InquiryStore.Text | src/api/server.js:52-57 | a string property is read exactly when it is present as a string |
| InquiryStore.TextOrEmpty | src/api/server.js:54-56 | `value \|\| ''`: the string when truthy, empty when falsy |
| InquiryStore.NewInquiry | src/api/server.js:39-43 | the stored inquiry has the body's keys plus id, created_at and status; a body id overrides the counter; the server's timestamp and `new` status always win |
| InquiryStore.Notification | src/api/server.js:50-58 | the notification takes name, e-mail and description from the body, phone, budget and timeline as `value || ''`, at priority Media, with no company or service |
| InquiryStore.FindFirst | src/api/server.js:97-105 | `find`: the first inquiry with the id, or none when no inquiry has it |
| InquiryStore.FilterEmail | src/api/server.js:108-115 | `filter`: exactly the inquiries with the e-mail, no more than the store holds; order and repetitions are in FilterEmailAppend and FilterEmailOne |
| InquiryStore.FilterEmailAppend | src/api/server.js:110 | filtering a concatenation filters each part in turn, so the store's order and repetitions are kept |
| InquiryStore.FilterEmailOne | src/api/server.js:110 | one inquiry is kept exactly when it has the e-mail |
| InquiryStore.Store.Create | src/api/server.js:27-79 | a body without the three required fields gets 400 and the store is unchanged; otherwise the inquiry is appended with the counter's id, the counter moves on, and the notification is built from the body |
| InquiryStore.Store.List | src/api/server.js:82-94 | `skip` and `limit` default to 0 and 100 and go through `parseInt`; when either is `NaN` the page is empty and that field is null; otherwise the page is the store's `Window`; the store's size always |
| InquiryStore.Store.Window | src/api/server.js:85-87 | `slice(start, start + count)`: a run of the store from the start index on, at most `count` long and exactly that long when the store has enough |
| InquiryStore.ListDefault | src/api/server.js:83-87 | without a query the page is the first hundred inquiries, with skip 0 and limit 100 |
| InquiryStore.Store.FindById | src/api/server.js:97-105 | the path id goes through `parseInt`; found exactly when it is a number that some inquiry has, and then the FIRST such inquiry (`FindFirst`), as `find` returns; otherwise 404 |
| InquiryStore.Store.ByEmail | src/api/server.js:108-115 | the inquiries are `FilterEmail` of the store (store order and repetitions kept), exactly those with the e-mail, and their count |
| InquiryStore.ServerIdUnlessOverridden | src/api/server.js:39-43 | without an id of its own, a created inquiry gets exactly the counter's value |
| KeywordDispatch.FirstMatch | src/api/api.js:151-239 | the first rule that holds, or none when none holds |
| KeywordDispatch.Respond | src/api/api.js:151-239 | with no rule holding for the lower-cased message, the default answer; otherwise the first rule that holds decides |
| KeywordDispatch.FirstRuleWins | src/api/api.js:151-239 | the first rule that holds decides, whatever later rules say |
| ChatApi.EntryTurns | src/api/api.js:100-108 | a user entry gives a user turn, a bot entry an assistant turn, anything else nothing |
| ChatApi.Turns | src/api/api.js:100-108 | no more turns than entries, and every one a user or assistant turn |
| ChatApi.Recent | src/api/api.js:98-99 | none without a history array; otherwise exactly min(10, length) entries, forming the history's suffix (so all of a short history) |
| ChatApi.Prompt | src/api/api.js:95-110 | the system instructions first, the message last as a user turn, and between them exactly the turns of the recent entries, at most twelve messages |
| ChatApi.TurnsAppend | src/api/api.js:100-108 | the turns of a concatenation are the turns of each part in order |
| ChatApi.TurnsOfConversation | src/api/api.js:100-108 | user and bot entries each give exactly one turn at their own position |
| ChatApi.TurnsOfOthers | src/api/api.js:100-108 | entries of any other kind give no turn |
| ChatApi.OlderHistoryIgnored | src/api/api.js:99 | entries older than the last ten never reach the prompt |
| ChatApi.BuildPrompt | src/api/api.js:95-110 | the loop builds exactly `Prompt` |
| ChatApi.AddTurns | src/api/api.js:100-108 | the `forEach` appends exactly the entries' turns |
| ChatApi.HandleChat | src/api/api.js:77-148 | a missing message gets 400 and nothing is sent; the prompt is sent exactly when there is a message and a key; the answer is generated exactly when the completion succeeded, and local otherwise |
| ChatApi.ComoAloneIsFallback | src/api/api.js:203 | `&&` binds tighter than `\|\|`: "como" alone is not a contact question |
| ChatApi.ComoSkipsFirstRules | src/api/api.js:154-202 | none of the greeting, services and prices tests holds for "como" |
| ChatApi.ComoSkipsContactRule | src/api/api.js:203 | the contact test needs "pongo" besides "como" |
| ChatApi.EmailIsContact | src/api/api.js:203 | here "email" is a contact question |
| ChatApi.EmailSkipsFirstRules | src/api/api.js:154-202 | none of the greeting, services and prices tests holds for "email" |
| ChatApi.EmailFiresContactRule | src/api/api.js:203 | the contact test holds for "email" |
| Chatbot.Displayable | src/components/js/chatbot.js:607-616 | exactly the user and bot entries are shown again, none other; order and repetitions are in DisplayableAppend and DisplayableOne |
| Chatbot.DisplayableAppend | src/components/js/chatbot.js:611-615 | picking from a concatenation picks from each part in turn: order and repetitions are kept |
| Chatbot.DisplayableOne | src/components/js/chatbot.js:612 | one entry is shown again exactly when it is a user or bot entry |
| Chatbot.Saved | src/components/js/chatbot.js:579-593 | the history gains the entry last and keeps at most 50 |
| Chatbot.SavedKeepsNewest | src/components/js/chatbot.js:583-585 | saving keeps the history bounded by 50 and keeps the newest entries |
| Chatbot.RestoreBounded | src/components/js/chatbot.js:607-616 | a reopened page shows at most ten entries, all user or bot entries of the history |
| Chatbot.MessageText | src/components/js/chatbot.js:235-237 | the suggestion's text when given, else the trimmed input; empty exactly when neither has content |
| Chatbot.BotResponse | src/components/js/chatbot.js:292-339 | without API access or on a failed call, the local answer; with access and an answer, that answer when truthy and the apology otherwise; a said answer only from a call that answered it |
| Chatbot.ExperienciaGetsAI | src/components/js/chatbot.js:382 | "experiencia" contains "ia", so it gets the AI answer although the experience test also holds for it |
| Chatbot.ExperienciaSkipsEarlierRules | src/components/js/chatbot.js:345-369 | neither the services nor the prices test holds for "experiencia" |
| Chatbot.ExperienciaFiresAIRule | src/components/js/chatbot.js:382 | the AI test holds for "experiencia", which ends in "ia" |
| Chatbot.ExperienciaFiresExperienceRule | src/components/js/chatbot.js:438 | the experience test holds for "experiencia" too, though it is never reached |
| Chatbot.PortfolioChatbot.constructor | src/components/js/chatbot.js:3-29 | an empty history shows the welcome; a stored one is shown again, last ten entries |
| Chatbot.PortfolioChatbot.CheckApiAvailability | src/components/js/chatbot.js:31-49 | an answer records whether the server has a key and passes it to the configuration; a throw marks the API unavailable; the window, session, typing and suggestions are untouched |
| Chatbot.PortfolioChatbot.ToggleChatbot | src/components/js/chatbot.js:173-179 | the window flips and every other field is untouched |
| Chatbot.PortfolioChatbot.OpenChatbot | src/components/js/chatbot.js:181-198 | the window opens and every other field is untouched |
| Chatbot.PortfolioChatbot.CloseChatbot | src/components/js/chatbot.js:200-207 | the window closes and every other field is untouched |
| Chatbot.PortfolioChatbot.MinimizeChatbot | src/components/js/chatbot.js:209-211 | minimising closes, and every other field is untouched |
| Chatbot.PortfolioChatbot.LoadConversationHistory | src/components/js/chatbot.js:595-605 | a stored history replaces the current one |
| Chatbot.PortfolioChatbot.LoadWelcomeMessage | src/components/js/chatbot.js:213-231 | the welcome, saying whether the API is available, is shown and kept but not saved |
| Chatbot.PortfolioChatbot.AddMessage | src/components/js/chatbot.js:472-488 | always shown, kept exactly when asked |
| Chatbot.PortfolioChatbot.SaveMessage | src/components/js/chatbot.js:579-593 | the history becomes `Saved` and stays within 50 |
| Chatbot.PortfolioChatbot.RestoreConversationMessages | src/components/js/chatbot.js:607-616 | the displayable part of the last ten entries is shown |
| Chatbot.PortfolioChatbot.ShowEntries | src/components/js/chatbot.js:611-615 | the `forEach` shows exactly the user and bot entries, in order, and changes nothing else |
| Chatbot.PortfolioChatbot.HideSuggestions | src/components/js/chatbot.js:559-564 | the suggestions are hidden only while the session has no messages (the first send after a restored history); otherwise they stay as they were |
| Chatbot.PortfolioChatbot.SendMessage | src/components/js/chatbot.js:233-290 | blank text changes nothing; otherwise the user entry and the reply are shown, kept and saved, and an apology is shown but never saved; the suggestions are hidden when the session had no messages; typing is off at the end; the window, API flag and configuration are untouched |
| Chatbot.PortfolioChatbot.SendText | src/components/js/chatbot.js:240-289 | the user entry and then the reply (the apology when the reply step throws) are shown and kept; the user entry is saved, and the reply too unless the step threw; suggestions as `HideSuggestions`; the window, API flag and configuration are untouched |
| Chatbot.PortfolioChatbot.Reply | src/components/js/chatbot.js:262-289 | the reply is shown, kept and saved; an apology is shown and kept only; typing off, suggestions, window, API flag and configuration untouched |
| Chatbot.PortfolioChatbot.ClearHistory | src/components/js/chatbot.js:618-631 | the history and window are emptied, the welcome shown again, the suggestions visible; typing, the window, the API flag and the configuration are untouched |
| MainPage.MissingErrors | js/main.js:596-602 | no "required" errors exactly when every checked field is filled |
| MainPage.MissingErrorsSound | js/main.js:596-602 | every error is a "required" error for an unfilled field among those checked |
| MainPage.MissingErrorsComplete | js/main.js:596-602 | every unfilled field gets its "required" error |
| MainPage.CheckRequired | js/main.js:596-602 | the `forEach` reports exactly `MissingErrors`, and leaves the form valid exactly when it reported nothing |
| MainPage.FormErrors | js/main.js:592-611 | no errors exactly when every required field is filled and a given e-mail matches; a bad e-mail always gets its error |
| MainPage.ValidateForm | js/main.js:592-611 | valid exactly when there are no errors, and the errors are `FormErrors` |
| MainPage.FilterProjects | js/main.js:460-480 | one shown flag per card, shown exactly for `all` or a matching category |
| MainPage.FilterAllAndUncategorised | js/main.js:460-480 | `all` shows every card; an uncategorised card shows only for `all` or the empty filter |
| MainPage.EmailGetsAI | js/main.js:352-375 | "email" contains "ai", so the page answers a question about e-mail with the AI answer although the contact test holds |
| MainPage.EmailSkipsEarlierRules | js/main.js:292-350 | none of the greeting, services and prices tests holds for "email" |
| MainPage.EmailFiresAIRule | js/main.js:352 | the AI test holds for "email", which contains "ai" |
| MainPage.EmailFiresContactRule | js/main.js:375 | the contact test holds for "email" too |
| MainPage.Answer | js/main.js:232-247 | the bot's entry is the server's answer when it gave one, and the local answer with a note exactly when the request failed |
| MainPage.AppState.AddChatMessage | js/main.js:248-286 | exactly one entry appended |
| MainPage.AppState.SendChatMessage | js/main.js:211-247 | blank input does nothing; otherwise the trimmed text and then the server's answer, or the local answer on failure, are recorded |
| MainPage.AppState.AddAnswer | js/main.js:232-247 | exactly the bot's `Answer` is appended and the rest of the state is kept |
| MainPage.AppState.constructor | js/main.js:4-8 | the menu starts closed, the filter at `all` and the conversation empty |
| MainPage.AppState.SelectFilter | js/main.js:441-458 | the filter is remembered and the cards shown by `FilterProjects` |
| MainPage.AppState.ToggleMenu | js/main.js:692-715 | the menu flips |
| MainPage.AppState.NavLinkClicked | js/main.js:692-715 | a link closes the menu |
| MainPageFixed.AppState.InitContactForm | js/main-fixed.js:33-68 | the set-up runs at most once, and only when the form exists |
| MainPageFixed.AppState.constructor | js/main-fixed.js:4-9 | the menu closed, set-up not yet run, no notification |
| MainPageFixed.AppState.MenuToggleClicked | js/main-fixed.js:364-386 | the menu flips and its classes follow |
| MainPageFixed.AppState.NavLinkClicked | js/main-fixed.js:364-386 | a link closes the menu |
| MainPageFixed.AppState.ShowNotification | js/main-fixed.js:236-300 | the old notification is removed first, so exactly one shows |
| MainPageFixed.AppState.CloseNotification | js/main-fixed.js:289-296 | the notification is removed |
| MainPageFixed.TypingEffect.constructor | js/main-fixed.js:445-453 | the texts are the attribute split at `\|`, which join back to it; nothing is shown yet |
| MainPageFixed.TypingEffect.Step | js/main-fixed.js:455-478 | one character more or fewer of the current text; a fully typed text starts being deleted after 2000 ms; a fully deleted one gives way to the next, cyclically, after 500 ms |
| ClientForm.FirstOkIndex | src/components/js/main-fixed.js:66-84 | the first endpoint answering ok, or none when none does |
| ClientForm.LengthFormErrors | src/components/js/main-fixed.js:107-127 | at most three errors, one per rule |
| ClientForm.NameCheck | src/components/js/main-fixed.js:111-114 | no error exactly when the trimmed name has at least 2 characters; otherwise only the name error |
| ClientForm.EmailCheck | src/components/js/main-fixed.js:116-119 | no error exactly when the e-mail is present and matches the pattern; otherwise only the e-mail error |
| ClientForm.MessageCheck | src/components/js/main-fixed.js:121-124 | no error exactly when the trimmed message has at least 10 characters; otherwise only the message error |
| ClientForm.LengthFormValid | src/components/js/main-fixed.js:107-127 | the form is valid exactly when all three rules hold |
| ClientForm.NameErrorExact | src/components/js/main-fixed.js:111-114 | the name error is among the errors exactly when the trimmed name is under 2 characters |
| ClientForm.EmailErrorExact | src/components/js/main-fixed.js:116-119 | the e-mail error is among the errors exactly when the e-mail is missing or rejected |
| ClientForm.MessageErrorExact | src/components/js/main-fixed.js:121-124 | the message error is among the errors exactly when the trimmed message is under 10 characters |
| ClientForm.Cleared | src/components/js/main-fixed.js:95 | `form.reset()` empties every field and adds or removes none, taking the markup's defaults as empty (see Left out) |
| ComponentsMainFixed.StripTrailingSlash | src/components/js/main-fixed.js:61 | at most one trailing slash is dropped, and putting it back gives the base |
| ComponentsMainFixed.Endpoints | src/components/js/main-fixed.js:58-64 | a configured base (global first, then meta tag) is the only endpoint; without one the relative path is last, and the local server comes first exactly off the production hosts |
| ComponentsMainFixed.PostToEndpoints | src/components/js/main-fixed.js:66-84 | endpoints are tried in order up to the first ok answer, which is the response; with none ok, all are tried and there is no response |
| ComponentsMainFixed.Report | src/components/js/main-fixed.js:86-101 | success exactly for a JSON answer whose `success` is true; the notice is the body's `message`, else its `error`, else the sent or not-sent text; a JSON body that does not parse gives the unexpected-error text; a body that is not JSON gives the not-sent error; no response gives the "no server" error |
| ComponentsMainFixed.Page.HandleFormSubmit | src/components/js/main-fixed.js:48-105 | an invalid form shows its errors and nothing is sent; otherwise the endpoints are tried, the report shown, the form reset only on success, and submitting is off at the end |
| ComponentsMainFixed.Page.Validate | src/components/js/main-fixed.js:55 | the errors shown are `LengthFormErrors` of the form, and nothing else changes |
| ComponentsMainFixed.Page.SubmitIfValid | src/components/js/main-fixed.js:55-56 | with errors on show nothing is sent and nothing changes; otherwise the send's outcome, with submitting off at the end |
| ComponentsMainFixed.Page.Submit | src/components/js/main-fixed.js:57-104 | the flag is raised around the send and is down at the end; the outcome is `SendOutcome` |
| ComponentsMainFixed.Page.Send | src/components/js/main-fixed.js:66-101 | the endpoints tried, the notice shown and the form reset are those `SendOutcome` names for the first ok answer |
| ComponentsMainFixed.Page.constructor | src/components/js/main-fixed.js:2-7 | set-up not yet run, nothing submitting, the menu closed |
| ComponentsMainFixed.Page.InitContactForm | src/components/js/main-fixed.js:28-46 | the set-up runs at most once, only with the form present; the menu, the form's contents, its errors, notification and submitting flag are unchanged |
| ComponentsMainFixed.Page.SetSubmitting | src/components/js/main-fixed.js:157-168 | the flag is set and nothing else changes |
| ComponentsMainFixed.Page.MenuToggleClicked | src/components/js/main-fixed.js:288-330 | the menu flips and the body is locked exactly while open; the form, its errors, notification and submitting flag are unchanged |
| ComponentsMainFixed.Page.NavLinkClicked | src/components/js/main-fixed.js:316-327 | a link inside the menu closes it and unlocks the body, whatever it points to; the form, its errors, notification and submitting flag are unchanged |
| ComponentsMainFixed.Page.AnchorClicked | src/components/js/main-fixed.js:213-261 | an in-page link closes an open menu and unlocks the body only when its target exists; otherwise the menu state is unchanged; the form, its errors, notification and submitting flag are unchanged either way |
| ComponentsMainClean.LastAnswer | src/components/js/main-clean.js:66-84 | none exactly when every endpoint threw; otherwise the answer of an endpoint after which all threw |
| ComponentsMainClean.PostToEndpoints | src/components/js/main-clean.js:66-84 | endpoints are tried up to the first ok answer; the response is the last answer received; it is ok exactly when some endpoint answered ok |
| ComponentsMainClean.Report | src/components/js/main-clean.js:86-95 | without an ok answer success is simulated; an ok JSON answer shows its `message`, else the sent text, as success; an ok answer that is not JSON shows the failure text as an error, the only case the form is kept |
| ComponentsMainClean.NoBackendStillSucceeds | src/components/js/main-clean.js:86-95 | when no endpoint answers ok, the page still reports success and resets the form |
| ComponentsMainClean.Page.HandleFormSubmit | src/components/js/main-clean.js:48-102 | an invalid form shows its errors and nothing is sent; otherwise the endpoints are tried, the report shown, the form reset on both success paths, and submitting off at the end |
| ComponentsMainClean.Page.Send | src/components/js/main-clean.js:57-99 | the endpoints are tried up to the first ok one, the notice is `Report` of the last answer, and the form is reset exactly when the report says so |
| ComponentsMainClean.Page.constructor | src/components/js/main-clean.js:2-7 | set-up not yet run, nothing submitting, the menu closed |
| ComponentsMainClean.Page.InitContactForm | src/components/js/main-clean.js:28-46 | the set-up runs at most once, only with the form present; the menu, the form's contents, its errors, notification and submitting flag are unchanged |
| ComponentsMainClean.Page.SetSubmitting | src/components/js/main-clean.js:154-165 | the flag is set and nothing else changes |
| ComponentsMainClean.Page.MenuToggleClicked | src/components/js/main-clean.js:271-278 | the menu flips and the page stops scrolling exactly while open; the form, its errors, notification and submitting flag are unchanged |
| ComponentsMainClean.Page.NavLinkClicked | src/components/js/main-clean.js:283-288 | a link closes the menu and lets the page scroll; the form, its errors, notification and submitting flag are unchanged |
| ComponentsMainClean.Page.WindowResized | src/components/js/main-clean.js:292-299 | wider than 768 pixels closes the menu, otherwise the menu is unchanged; the form, its errors, notification and submitting flag are unchanged |
| ContactComponent.ApiData | src/components/Contact.jsx:30-37 | name, e-mail and description always; phone, budget and timeline exactly when filled; no other key |
| ContactComponent.FormOf | src/components/Contact.jsx:5-14 | reading a payload back gives exactly the six form fields |
| ContactComponent.PayloadKeepsForm | src/components/Contact.jsx:30-37 | leaving out empty optional fields loses nothing: the form can be read back from the payload |
| ContactComponent.MessageClass | src/components/Contact.jsx:173 | `error` exactly when the message contains "Error", `success` otherwise |
| ContactComponent.FailureShowsAsError | src/components/Contact.jsx:50 | the failure message always shows as an error |
| ContactComponent.SuccessShowsAsSuccess | src/components/Contact.jsx:40 | the success message never shows as an error |
| ContactComponent.Contact.constructor | src/components/Contact.jsx:5-14 | six empty fields, not submitting, no message |
| ContactComponent.Contact.HandleInputChange | src/components/Contact.jsx:16-22 | the named field takes the value; every other field is unchanged |
| ContactComponent.Contact.HandleSubmit | src/components/Contact.jsx:24-54 | the payload is `ApiData` of the form; success empties the form with the success text; failure keeps the form with the error text; submitting is off at the end |
| Theme.ThemeManager.constructor | js/theme.js:2-9 | the body follows the preference rule from the start |
| Theme.ThemeManager.InitializeTheme | js/theme.js:11-18 | a saved theme wins; otherwise the system's preference decides |
| Theme.ThemeManager.ActivateDarkMode | js/theme.js:26-29 | dark and remembered, whatever the state before |
| Theme.ThemeManager.ActivateLightMode | js/theme.js:31-34 | light and remembered, whatever the state before |
| Theme.ThemeManager.HandleSystemThemeChange | js/theme.js:36-40 | the new preference shows only while no theme is saved |

## Left out

- Floating point: prices are whole euros. The budget multiplier is kept in tenths, and `Math.round` is modelled on whole numbers. `parseInt`/`parseFloat` of the chat settings and of the page scripts' scroll offsets and counters is not modelled.
- JsText.ParseInt: only text is read. A query parameter given twice (an array), and `parseInt` of a number beyond 2^53, are not modelled.
- Strings are sequences of characters, not UTF-16 code units. `toLowerCase`/`toUpperCase` are modelled for the ASCII and Latin-1 letters, `ß`, `ÿ` and `µ` included; other characters are left unchanged.
- ClientForm.Cleared: `form.reset()` restores each control's default value from the markup, which is not part of this model; every default is taken to be empty.
- Markup, CSS and the texts of canned answers are not modelled, except the PDF's three priority classes. Documents and mails are block sequences, and a canned answer is its topic.
- The system prompt's text is not modelled (`SystemPrompt` stands for it), nor are the OpenAI model settings (model, max tokens, temperature, penalties).
- Timers and asynchrony are not modelled: the notification timers, the typing delay, the 5-second Gmail timeout race (settled by `SettleVerification`), and the delay before the simulated success.
- The rate limiters of `server.js` are not modelled.
- The catch-all 500 answers of the handlers are not modelled, except the quote handler's for an inherited service name; a non-string JSON value in a form field is treated as absent.
- MailCommon.PriorityEmoji: a priority that names an inherited property (`toString`, `constructor`, `__proto__`, ...) finds a function or object in the emoji map, whose printed form ends up in the subject; the model gives yellow for it.
- MailCommon.StyleOf: for such a priority the style map also finds the inherited value instead of falling back to Media; the model gives the Media style.
- `nodemailer`, the SendGrid, Mailgun and OpenAI SDKs, `puppeteer` and `fetch` are not part of this model. Their outcomes are parameters.
- The require path `./utils/emailService-sendgrid` in `app.js` is not modelled: the service is taken as given, since the file lives under `src/api/utils`.
- EmailServiceAdvanced.AdvancedService.SendContactFormEmail: the `transporter` guard of `sendWithNodemailer` is not modelled, because it cannot fail while Gmail is available (an invariant of the class).
- MainPage.AppState.SendChatMessage: an answer without a `response` field is stored as an absent content. The rendering of that entry is not modelled.
- The `escapeHtml` of `chatbot.js`, the DOM, and changes to local storage made by other tabs are not modelled.
- The `validateForm` of `js/main-fixed.js` is the same as that of `js/main.js`, so `MainPage.ValidateForm` models both.
- ChatApi.HandleChat: a `message` that is a non-string JSON value is not modelled; only strings or absence are.
- ContactComponent.Contact.HandleSubmit: states the final `isSubmitting` only; the `true` it holds while the request runs is not stated.
- ComponentsMainClean.Page.HandleFormSubmit and ComponentsMainFixed.Page.HandleFormSubmit: the submitting flag is stated at the end only.
- ContactServer.HandleContact: the mail is sent only when the PDF exists (server.js:214-228), as the code does.
- Notification identity (which element the close button removes) is not modelled: only the list of notifications on show is.

## Findings

| source | as written | input that shows it | evidently intended | confidence | as-written member | corrected member |
|---|---|---|---|---|---|---|
| app.js:58-59 | `createContactPDF` is taken from `utils/pdfGenerator`, which exports only a `PDFGenerator` instance (line 321), so the call throws, is caught, and no PDF is ever generated or attached | any valid contact form, e.g. name "Ana", e-mail "ana@x.es", message "Hola" | `pdfGenerator.generateContactFormPDF(normalizedData)` called on the exported instance (destructuring that method would lose `this`), so that the PDF exists and is attached when rendering succeeds | not executed | AppServer.HandleContactAsWritten | AppServer.HandleContact |
| utils/emailService.js:15 | `nodemailer.createTransporter(...)`: nodemailer's factory is `createTransport` (the name `src/api/utils/emailService-sendgrid.js:21,42` uses), so with both credentials set the call throws inside the constructor, nothing catches it, and `module.exports = new EmailService()` fails; `server.js` requires this module | the environment EMAIL_USER="ventas@stratek.es", EMAIL_PASS="clave" | `createTransport`, so that both credentials give a transporter whose check is pending | not executed | EmailService.LoadAsWritten | EmailService.GmailService.constructor |
| utils/emailServiceAdvanced.js:46 | the same `createTransporter` call in `initializeNodemailer`, run from the constructor without a catch, so construction throws whenever the Gmail credentials are set, even with SendGrid accepted | SENDGRID_API_KEY="SG.clave", EMAIL_USER="ventas@stratek.es", EMAIL_PASS="clave" | `createTransport`, so that Gmail's check starts and SendGrid stays usable | not executed | EmailServiceAdvanced.LoadAsWritten | EmailServiceAdvanced.AdvancedService.InitializeNodemailer |
| utils/pdfGenerator.js:182 | the priority row's class is `priority-${data.priority.toLowerCase()}`, while the sheet's stylesheet (lines 125-136) defines only `priority-high`, `priority-medium` and `priority-low`, so the forms' priorities are never coloured | priority "Alta" gives class `priority-alta` | Alta, Media and Baja mapped to `high`, `medium` and `low`, matching the red, amber and green the e-mails use for them | not executed | PdfGenerator.FormPrioritiesUnstyled | PdfGenerator.StyledPriorityClass |
