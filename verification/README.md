# SaltRenewal CCTV lead-generation app: a Dafny model

SaltRenewal sells CCTV installations. A landing page and a four-step price
estimate wizard collect leads. An Express/Mongoose server stores those leads
and mirrors each one into a Google spreadsheet. The same server runs a live
chat with customers and takes their questions. Signed-in customers file
service requests and contact forms. Employees register with an employee
code and must be approved before they can sign in.

This project models the logic underneath the UI and the storage calls, and
proves what the code promises about it:

- **BusinessCalendar** (`calendar.dfy`): the appointment calendar of the
  wizard. It covers weekdays, the eight fixed Korean public holidays, and the
  earliest bookable date, which is two business days after today. It also
  builds the month grid of 7-slot weeks. Dates are (year, month, day)
  records with a day number counted from 1970-01-01.
- **EstimateWizard** (`price_estimate.dfy`): the wizard's state machine,
  price table, option toggles, `010-` phone normaliser and month
  navigation.
- **Landing** (`landing_page.dfy`): the landing page's helpers, as listed:
  - the dash-inserting phone formatter;
  - the non-negative counters;
  - the business-day customer counter;
  - the chat-hours window;
  - the sample-video selector;
  - the schedule and consultation forms;
  - the customer side of the chat widget.
- **ChatStore** (`notifications.dfy`): the chat sessions and customer
  questions behind `/api/notifications`, with each question change
  mirrored into the spreadsheet's question sheet.
- **SheetsMirror** (`google_sheets.dfy`): the spreadsheet mirror, with
  sheets modelled as sequences of rows. It covers the duplicate scan, the
  row builders and their parsers, insertion at the top, the stable ids, and
  question rows. It also covers the week range of the daily statistics.
- **Estimates** (`price_estimates.dfy`): the estimate submission controller
  and the estimate route table. The controller extracts the client IP and
  forces the type and the conversion flag.
- **ServiceRequests**, **ContactForms** (`service_requests.dfy`,
  `contact_forms.dfy`):
  - the two customer record stores;
  - role-scoped listing and the ownership check;
  - which fields each role may change;
  - the append-only edit history;
  - each route's role gate.
- **EmailPattern** (`email_pattern.dfy`): the contact form's e-mail regular
  expression. It is written both as a grammar and as a flat description, and
  the two are proved to accept the same strings.
- **Accounts** (`auth.dfy`): sign-up, login and employee approval.
  - Sign-up validation and the employee-code gate.
  - Username uniqueness, which ignores the case of ASCII letters.
  - Login outcomes ordered 400, 401, 403.
  - Approval, rejection and password change.
  - The auth route table.
- **RegisterForms** (`register_forms.dfy`): the employee and customer
  sign-up pages. They compute a live password-strength summary and run
  their submit checks in a fixed order.
- **Common**, **Routing**, **EditHistory**: shared pieces.
  - `Common` holds options, status codes and JavaScript string helpers:
    `trim`, `toLowerCase`, digit filtering and descending sorts.
  - `Routing` holds route tables. A request is served by the first
    matching route; its gate answers 401 without a token and 403 for the
    wrong role.
  - `EditHistory` holds the edit-history entries and the `if (value)`
    conventions for optional body fields and query filters.

Parts of the system that change in place are classes with `modifies`
clauses. These are the stores, the wizard, the landing-page widgets and the
sign-up pages. Each method states the whole new state in terms of pure
functions, and the lemmas are about those functions. The clock, the server's
replies and random session ids are method parameters.

Some behaviour of the code is surprising, and the model keeps it. The
lemmas that state it are named here:

- `checkUsername` lower-cases the name without trimming it. Registration
  trims it first. A name with surrounding spaces is therefore reported
  available, yet registering it fails as taken
  (`Accounts.SurroundingSpacesFoolCheck`).
- When no employee code is configured on the server, a registration
  without a code passes the employee-code gate
  (`Accounts.UnsetCodeAdmitsMissingCode`).
- Approving and rejecting employees needs a signed-in caller but no
  particular role (`Accounts.ApprovalNeedsNoRole`).
- Accepting or ending a chat works in any status, an ended chat included.
- An estimate's status update stores any string: `findByIdAndUpdate` runs
  no validators.
- Every quick estimate that reaches the quick sheet is mirrored with `O`
  in the conversion column: the server forces `converted` to true on the
  body it passes to the mirror, so the restart button's estimate, which the
  client sends unconverted, is recorded as converted too
  (`Estimates.QuickMirrorAlwaysConverted`).
- The landing page's consultation form posts no `appointment`. The row
  builder reads `appointment.date` unguarded, so the mirror throws and
  only reports the error: the request is stored and answered 201 but never
  reaches the SALT sheet (`Estimates.LandingConsultationSavedNotMirrored`).
  The schedule modal sends all three objects and is mirrored
  (`Estimates.LandingScheduleMirrored`).
- Two phone numbers that differ only in characters outside `[A-Za-z0-9-]`
  get the same dashboard id (`SheetsMirror.StableIdCollides`).

## Model

| member | source | states |
|---|---|---|
| BusinessCalendar.DaysInMonth | client/src/components/Landing/PriceEstimate.js:338-339 | the last day of a month is 28 to 31, and 29 in February exactly in Gregorian leap years |
| BusinessCalendar.NextDayNumber | client/src/components/Landing/PriceEstimate.js:325 | `setDate(getDate() + 1)` advances the day number by exactly one, rolling over months and years |
| BusinessCalendar.AdvanceNumber | client/src/components/Landing/PriceEstimate.js:324-330 | k steps of the next-day rollover advance the day number by k |
| BusinessCalendar.Weekday | client/src/components/Landing/PriceEstimate.js:289-292 | `getDay` is in 0..6 and advances by one (mod 7) per day |
| BusinessCalendar.HolidayKeysAreMonthDays | client/src/components/Landing/PriceEstimate.js:300-309 | the eight list entries are the year followed by the fixed (month, day) keys |
| BusinessCalendar.MonthDayKeyInjective | client/src/components/Landing/PriceEstimate.js:311 | the zero-padded `MM-DD` key determines month and day |
| BusinessCalendar.HolidayIff | client/src/components/Landing/PriceEstimate.js:294-313 | `isHoliday` holds exactly on the eight fixed (month, day) pairs, whatever the year |
| BusinessCalendar.NoConsecutiveHolidays | client/src/components/Landing/PriceEstimate.js:300-309 | the day after a fixed holiday is never one |
| BusinessCalendar.BusinessDayWithinWeek | client/src/components/Landing/PriceEstimate.js:289-313 | any seven consecutive days hold a weekday that is not a holiday |
| BusinessCalendar.CountBusiness | client/src/components/Landing/PriceEstimate.js:324-329 | the business days among the k days after a date number at most k |
| BusinessCalendar.CountBusinessMonotone | client/src/components/Landing/PriceEstimate.js:323-329 | the number of business days passed never decreases as the loop steps |
| BusinessCalendar.TwoBusinessDaysWithinTwoWeeks | client/src/components/Landing/PriceEstimate.js:323-329 | fourteen days after any date hold at least two business days, which bounds the loop |
| BusinessCalendar.MinimumDateUnique | client/src/components/Landing/PriceEstimate.js:320-332 | at most one date is a business day with exactly two business days in (today, date] |
| BusinessCalendar.MinimumDate | client/src/components/Landing/PriceEstimate.js:320-332 | `getMinimumDate` terminates and returns a business day after today with exactly two business days in (today, result] |
| BusinessCalendar.MinimumDateAfterToday | client/src/components/Landing/PriceEstimate.js:320-332 | the earliest bookable date lies after today |
| BusinessCalendar.FirstWeekday | client/src/components/Landing/PriceEstimate.js:337-340 | the first of the month falls on a weekday 0..6 |
| BusinessCalendar.WeekCount | client/src/components/Landing/PriceEstimate.js:342-363 | the fewest 7-slot weeks that hold the leading empty slots and every day of the month: between 4 and 6 |
| BusinessCalendar.GridPlacesEachDayOnce | client/src/components/Landing/PriceEstimate.js:349-363 | in a month grid each day 1..last is placed exactly once, at the slot of its weekday |
| BusinessCalendar.GenerateCalendar | client/src/components/Landing/PriceEstimate.js:315-365 | the weeks built are the month grid; every day sits at its weekday's slot; a day is available iff it is on or after the minimum date, a weekday and not a holiday |
| EstimateWizard.PriceFor | client/src/components/Landing/PriceEstimate.js:74-85 | a price is non-zero exactly for 2..16 cameras, between 22000 and 88000 |
| EstimateWizard.PriceMatchesTable | client/src/components/Landing/PriceEstimate.js:78-84 | the price is the table entry of the total, and 0 for any total the table lacks |
| EstimateWizard.PriceIncreasing | client/src/components/Landing/PriceEstimate.js:78-82 | within the table, more cameras always cost more |
| EstimateWizard.Toggle | client/src/components/Landing/PriceEstimate.js:87-101 | toggling flips the membership of that id and no other; an absent id is appended at the end |
| EstimateWizard.ToggleKeepsOrder | client/src/components/Landing/PriceEstimate.js:87-101 | the other ids keep their relative order |
| EstimateWizard.ToggleTwiceRestores | client/src/components/Landing/PriceEstimate.js:87-93 | adding then removing an absent id restores the list |
| EstimateWizard.ForcedDigits | client/src/components/Landing/PriceEstimate.js:104-108 | the typed digits, with the first three forced to `010`: every digit after the third is the typed one, and a typed number already starting with `010` is kept |
| EstimateWizard.FormatPhone | client/src/components/Landing/PriceEstimate.js:110-116 | the displayed phone starts with `010-` and holds only digits and dashes |
| EstimateWizard.InitialPhoneShape | client/src/components/Landing/PriceEstimate.js:39 | the initial phone value `010-` already has the field's shape |
| EstimateWizard.PhoneChange | client/src/components/Landing/PriceEstimate.js:103-117 | the field keeps the `010-` shape, and input of more than 11 digits leaves it unchanged |
| EstimateWizard.FormatPhoneDigits | client/src/components/Landing/PriceEstimate.js:110-116 | the digits of the displayed phone are exactly the forced digits |
| EstimateWizard.FormatPhoneDashes | client/src/components/Landing/PriceEstimate.js:110-134 | removing the dashes, as the contact check does, gives back the digits |
| EstimateWizard.PhoneChangeIdempotent | client/src/components/Landing/PriceEstimate.js:103-117 | feeding the field's value back through the handler changes nothing |
| EstimateWizard.PhoneCheckIffElevenDigits | client/src/components/Landing/PriceEstimate.js:103-134 | the 11-digit check passes exactly when 11 digits remain after forcing the prefix |
| EstimateWizard.NextMonth | client/src/components/Landing/PriceEstimate.js:692 | the month after, rolling into the next year |
| EstimateWizard.PreviousMonth | client/src/components/Landing/PriceEstimate.js:685 | the month before, rolling into the previous year |
| EstimateWizard.MonthNavigationInverse | client/src/components/Landing/PriceEstimate.js:685-692 | next and previous month undo each other |
| EstimateWizard.DisplayName | client/src/components/Landing/PriceEstimate.js:143-144 | with no option of that id the id itself; otherwise, for the first option with that id, its name, or the id when that name is empty |
| EstimateWizard.Wizard.constructor | client/src/components/Landing/PriceEstimate.js:5-50 | the first render: step 1, no cameras, no options, phone `010-` |
| EstimateWizard.Wizard.ResetForm | client/src/components/Landing/PriceEstimate.js:270-287 | every field back to its initial value; the displayed month kept |
| EstimateWizard.Wizard.DecrementIndoor | client/src/components/Landing/PriceEstimate.js:409 | the indoor count drops by one, never below zero; nothing else changes |
| EstimateWizard.Wizard.IncrementIndoor | client/src/components/Landing/PriceEstimate.js:411 | the indoor count grows by one; nothing else changes |
| EstimateWizard.Wizard.DecrementOutdoor | client/src/components/Landing/PriceEstimate.js:421 | the outdoor count drops by one, never below zero |
| EstimateWizard.Wizard.IncrementOutdoor | client/src/components/Landing/PriceEstimate.js:423 | the outdoor count grows by one |
| EstimateWizard.Wizard.ToggleIotOption | client/src/components/Landing/PriceEstimate.js:87-93 | the IoT list becomes its toggle; nothing else changes (also line 437) |
| EstimateWizard.Wizard.ToggleSpecialOption | client/src/components/Landing/PriceEstimate.js:95-101 | the special list becomes its toggle (also line 456) |
| EstimateWizard.Wizard.RequestEstimate | client/src/components/Landing/PriceEstimate.js:119-131 | with fewer than two cameras nothing happens; otherwise the selection is saved as a copy and step 2 shows the price (also lines 471-472) |
| EstimateWizard.Wizard.StartConsultation | client/src/components/Landing/PriceEstimate.js:539 | step 2 to the contact step |
| EstimateWizard.Wizard.Restart | client/src/components/Landing/PriceEstimate.js:217-268 | sends the selection as a quick estimate with empty contact details, stamped with the client clock, and resets, whatever the reply (also line 543) |
| EstimateWizard.Wizard.EditSelection | client/src/components/Landing/PriceEstimate.js:584 | back to step 1, keeping the saved copy |
| EstimateWizard.Wizard.ChangePhone | client/src/components/Landing/PriceEstimate.js:103-117 | the phone becomes the handler's result (also line 595) |
| EstimateWizard.Wizard.SetAddress | client/src/components/Landing/PriceEstimate.js:605 | sets the address only |
| EstimateWizard.Wizard.SetLocationType | client/src/components/Landing/PriceEstimate.js:615 | sets the location type only |
| EstimateWizard.Wizard.SetHasInternet | client/src/components/Landing/PriceEstimate.js:629-649 | sets the internet answer only |
| EstimateWizard.Wizard.SetPrivacyConsent | client/src/components/Landing/PriceEstimate.js:661 | sets the consent only |
| EstimateWizard.Wizard.SubmitContactForm | client/src/components/Landing/PriceEstimate.js:133-139 | on to step 4 exactly when the phone has 11 digits, address, location type and internet answer are set and consent is given (also line 667) |
| EstimateWizard.Wizard.ShowPreviousMonth | client/src/components/Landing/PriceEstimate.js:685 | the displayed month becomes the previous one |
| EstimateWizard.Wizard.ShowNextMonth | client/src/components/Landing/PriceEstimate.js:692 | the displayed month becomes the next one |
| EstimateWizard.Wizard.SelectDay | client/src/components/Landing/PriceEstimate.js:717 | in a grid built on today's earliest bookable date, a click selects the day only when its cell is available; a newly selected day is a business day after today |
| EstimateWizard.Wizard.SelectTime | client/src/components/Landing/PriceEstimate.js:739-753 | selects one of the offered slots |
| EstimateWizard.Wizard.BackToContactForm | client/src/components/Landing/PriceEstimate.js:764 | step 4 back to step 3 |
| EstimateWizard.Wizard.FinalSubmit | client/src/components/Landing/PriceEstimate.js:141-215 | sends only with a day and a time chosen; the body carries the saved and the current selection with display names and the client clock as submittedAt; exactly on success the same body is posted again to the quick route with converted true, and the form resets; a failure changes nothing |
| Landing.FormatPhoneNumber | client/src/components/Landing/LandingPage.js:333-338 | the result holds only digits and dashes and is at most 13 characters |
| Landing.FormatPhoneNumberDigits | client/src/components/Landing/LandingPage.js:333-338 | the formatter keeps exactly the first min(n, 11) digits, in order |
| Landing.FormatPhoneNumberDashes | client/src/components/Landing/LandingPage.js:333-338 | a dash after the third digit, and after the seventh when there are more than seven; every other character is a digit |
| Landing.FormatPhoneNumberIdempotent | client/src/components/Landing/LandingPage.js:333-338 | formatting a formatted number changes nothing |
| Landing.AdjustCount | client/src/components/Landing/LandingPage.js:348-360 | `max(0, count + delta)`: never negative |
| Landing.AdjustCountUndo | client/src/components/Landing/LandingPage.js:348-360 | a `+` then a `-` restores the count; `-` at zero stays zero |
| Landing.CounterStartNumber | client/src/components/Landing/LandingPage.js:200 | 2024-01-01 is day 19723, a Monday |
| Landing.WeekdayCount | client/src/components/Landing/LandingPage.js:208-214 | the weekdays among k consecutive days number at most k |
| Landing.WeekdayCountMonotone | client/src/components/Landing/LandingPage.js:208-214 | more days never count fewer weekdays |
| Landing.CustomerCount | client/src/components/Landing/LandingPage.js:199-217 | the count is 10800 plus 7 per weekday, between 10800 and 10800 + 7 × days |
| Landing.CustomerCountMonotone | client/src/components/Landing/LandingPage.js:199-217 | the counter never goes down as days pass |
| Landing.CalculateCustomerCount | client/src/components/Landing/LandingPage.js:199-217 | the loop computes 10800 + 7 × (weekdays from 2024-01-01 through the last day reached) |
| Landing.IsWithinChatHours | client/src/components/Landing/LandingPage.js:362-374 | always on the three local host names; elsewhere exactly Monday to Friday, 10:00 to before 17:00 |
| Landing.Find | client/src/components/Landing/LandingPage.js:69-70 | an object lookup finds a value exactly for a key of the table |
| Landing.LookupIffTime | client/src/components/Landing/LandingPage.js:63-70 | a time has a clip exactly when it is one of the location's times |
| Landing.CurrentVideoId | client/src/components/Landing/LandingPage.js:69-71 | the table's clip, or `ypYZr1a4Mwk` when the path is missing |
| Landing.FallbackIsAnEntry | client/src/components/Landing/LandingPage.js:43-71 | the fallback clip is itself the default selection's clip |
| Landing.TimeForLocation | client/src/components/Landing/LandingPage.js:84-90 | a time the new location offers is kept |
| Landing.VideoDataTimed | client/src/components/Landing/LandingPage.js:48-61 | every location of the clip table offers at least one time of day |
| Landing.EveryLocationHasTimes | client/src/components/Landing/LandingPage.js:48-61 | every location of every resolution lists a non-empty first time |
| Landing.ResolutionChangeNamesEntry | client/src/components/Landing/LandingPage.js:74-81 | after a resolution change the selection names an existing clip |
| Landing.LocationChangeNamesEntry | client/src/components/Landing/LandingPage.js:84-90 | after a location change the selection names an existing clip |
| Landing.VideoSelector.constructor | client/src/components/Landing/LandingPage.js:43-45 | the default selection, which names a clip |
| Landing.VideoSelector.ChangeResolution | client/src/components/Landing/LandingPage.js:74-81 | first location and first time of the new resolution |
| Landing.VideoSelector.ChangeLocation | client/src/components/Landing/LandingPage.js:84-90 | keeps the time when offered, else picks the first |
| Landing.VideoSelector.ChangeTimeOfDay | client/src/components/Landing/LandingPage.js:909 | selects one of the offered times |
| Landing.VideoSelector.CurrentVideo | client/src/components/Landing/LandingPage.js:69-71 | the clip shown is always a table entry, never the fallback path |
| Landing.ScheduleModal.constructor | client/src/components/Landing/LandingPage.js:7-19 | closed, empty form, nothing chosen |
| Landing.ScheduleModal.Open | client/src/components/Landing/LandingPage.js:820 | the modal opens, keeping the entered form and the chosen day and time |
| Landing.ScheduleModal.ChangePhone | client/src/components/Landing/LandingPage.js:340-346 | the phone becomes the formatted input; nothing else changes |
| Landing.ScheduleModal.ChangeAddress | client/src/components/Landing/LandingPage.js:325-331 | sets the address only |
| Landing.ScheduleModal.ChangePrivacyConsent | client/src/components/Landing/LandingPage.js:325-331 | sets the consent only |
| Landing.ScheduleModal.ChangeQuantity | client/src/components/Landing/LandingPage.js:348-353 | adjusts one count, never below zero |
| Landing.ScheduleModal.SelectDay | client/src/components/Landing/LandingPage.js:1325 | in a grid built on today's earliest bookable date, only an available cell becomes the selected day, which is then a business day after today |
| Landing.ScheduleModal.SelectTime | client/src/components/Landing/LandingPage.js:1349-1364 | sets the time only |
| Landing.ScheduleModal.Submit | client/src/components/Landing/LandingPage.js:266-323 | sends only with day, time, phone, address, consent and a non-zero camera count; a success closes and clears, a failure keeps everything |
| Landing.ConsultationPanel.constructor | client/src/components/Landing/LandingPage.js:26-35 | hidden, empty form |
| Landing.ConsultationPanel.Show | client/src/components/Landing/LandingPage.js:517-524 | shows the form, keeping its contents |
| Landing.ConsultationPanel.ChangePhone | client/src/components/Landing/LandingPage.js:526-530 | the phone becomes the formatted input |
| Landing.ConsultationPanel.ChangeFields | client/src/components/Landing/LandingPage.js:526-534 | the other fields take their values |
| Landing.ConsultationPanel.ChangeQuantity | client/src/components/Landing/LandingPage.js:355-360 | adjusts one count, never below zero |
| Landing.ConsultationPanel.Submit | client/src/components/Landing/LandingPage.js:536-591 | sends only with phone, address, location type, internet answer, consent and a non-zero camera count; a success hides and clears |
| Landing.IndexOf | client/src/components/Landing/LandingPage.js:380 | the first position of a character, absent when it does not occur |
| Landing.SecondSegment | client/src/components/Landing/LandingPage.js:380 | `split('-')[1]`: present iff there is a dash, and itself dash-free |
| Landing.CustomerName | client/src/components/Landing/LandingPage.js:380 | `고객 ` followed by at most four characters; absent where the code would throw |
| Landing.GeneratedName | client/src/components/Landing/LandingPage.js:102-103 | for a generated session id the name is `고객 ` and the first four timestamp digits (also line 380) |
| Landing.ChatWidget.constructor | client/src/components/Landing/LandingPage.js:92-96 | no status, closed, no messages |
| Landing.ChatWidget.StartChatRequest | client/src/components/Landing/LandingPage.js:376-397 | asks only with a session id; a created chat is pending and open |
| Landing.ChatWidget.CloseFromCustomer | client/src/components/Landing/LandingPage.js:399-411 | closes; deletes the server chat and resets status and messages only when pending |
| Landing.ChatWidget.Send | client/src/components/Landing/LandingPage.js:478-507 | sends only non-blank input with a session in status active; the input is cleared and the server's messages replace the list |
| Landing.ChatWidget.TypeInput | client/src/components/Landing/LandingPage.js:1652 | sets the input only |
| ChatStore.NewChat | server/src/models/Chat.js:27-65 | a new chat is pending with no messages, the default name `고객`, empty acceptedBy and endedBy |
| ChatStore.MarkedRead | server/src/routes/notifications.js:173-178 | exactly the messages from the sender become read; the others are unchanged |
| ChatStore.MarkedReadIdempotent | server/src/routes/notifications.js:163-186 | marking twice is marking once |
| ChatStore.MarkedReadKeepsContent | server/src/routes/notifications.js:173-178 | text and sender of every message are kept |
| ChatStore.MarkedReadKeepsSchema | server/src/models/Chat.js:3-24 | marking read leaves each message passing the schema exactly when it did before |
| ChatStore.NotificationStore.constructor | server/src/models/Chat.js:28-32 | empty stores, over a given spreadsheet mirror |
| ChatStore.NotificationStore.CreateChat | server/src/routes/notifications.js:11-37 | an existing session is returned unchanged; otherwise a new pending chat is stored; an empty id is refused |
| ChatStore.NotificationStore.GetChat | server/src/routes/notifications.js:51-63 | always 200, with the stored chat or none |
| ChatStore.NotificationStore.ListChats | server/src/routes/notifications.js:40-48 | each stored chat exactly once per id holding it, and nothing else, latest update first |
| ChatStore.NotificationStore.AcceptChat | server/src/routes/notifications.js:66-90 | any existing chat becomes active with acceptedBy and acceptedAt; missing gives 404 and no change |
| ChatStore.NotificationStore.EndChat | server/src/routes/notifications.js:93-126 | any existing chat becomes ended with endedBy (default empty) and endedAt; missing gives 404 |
| ChatStore.NotificationStore.SendMessage | server/src/routes/notifications.js:129-160 | appends exactly one unread message, whatever the status; missing gives 404 |
| ChatStore.NotificationStore.MarkRead | server/src/routes/notifications.js:163-186 | when every stored message passes the schema, the sender's messages become read and the save sets lastUpdate; otherwise the save fails with 500 and nothing changes; missing gives 404 |
| ChatStore.NotificationStore.DeleteChat | server/src/routes/notifications.js:189-203 | removes the chat in any status; missing gives 404 |
| ChatStore.NotificationStore.CreateQuestion | server/src/routes/notifications.js:208-236 | a blank phone or question is refused and the sheet is untouched; otherwise stored trimmed, unread, IP default empty, and the untrimmed phone and question are mirrored at the top of the question sheet under the new question's id; the other sheets never change |
| ChatStore.NotificationStore.SetQuestionRead | server/src/routes/notifications.js:250-269 | only `read` changes; missing gives 404 and leaves the sheet alone; on success the sheet row with that id gets the new read mark |
| ChatStore.NotificationStore.DeleteQuestion | server/src/routes/notifications.js:272-290 | removes the question; missing gives 404 and leaves the sheet alone; on success the sheet row with that id is removed |
| ChatStore.QuestionKeysDistinct | server/src/routes/notifications.js:220-226 | distinct question ids give distinct sheet keys, so a mirrored row is found under its own id |
| ChatStore.NotificationStore.ListQuestions | server/src/routes/notifications.js:239-247 | each stored question exactly once per id holding it, and nothing else, newest first |
| SheetsMirror.DataRows | server/src/services/googleSheets.js:43-46 | the data rows read: sheet rows 2 to 1000, data row i being sheet row i + 2 |
| SheetsMirror.PhoneColumn | server/src/services/googleSheets.js:52-53 | column I on the quick sheet, D elsewhere |
| SheetsMirror.FirstDuplicate | server/src/services/googleSheets.js:50-62 | the first row whose IP, or else phone, equals the input; empty values never match |
| SheetsMirror.Memo | server/src/services/googleSheets.js:55-64 | empty exactly when no duplicate; otherwise it cites sheet row i + 2 |
| SheetsMirror.CheckDuplicate | server/src/services/googleSheets.js:38-65 | the loop with `break` returns the memo of the first duplicate, or empty |
| SheetsMirror.Str | server/src/services/googleSheets.js:105-145 | a missing string becomes empty |
| SheetsMirror.CountCell | server/src/services/googleSheets.js:109-110 | a missing count becomes 0 |
| SheetsMirror.QuickRow | server/src/services/googleSheets.js:98-121 | 15 cells, `O` iff converted, memo last |
| SheetsMirror.ConsultationRow | server/src/services/googleSheets.js:126-145 | 14 cells, memo last |
| SheetsMirror.PhoneColumnMatchesBuilders | server/src/services/googleSheets.js:52-53 | the duplicate scan reads phone and IP where the builders write them (also lines 106, 114, 131, 134) |
| SheetsMirror.MirroredRow | server/src/services/googleSheets.js:95-146 | the row ends with the memo of the duplicate scan of that sheet |
| SheetsMirror.InsertAtTop | server/src/services/googleSheets.js:157-183 | the new row is sheet row 2; header kept; old rows follow in order |
| SheetsMirror.Sanitize | server/src/services/googleSheets.js:408-436 | every character outside `[A-Za-z0-9-]` becomes `_` |
| SheetsMirror.StableId | server/src/services/googleSheets.js:408-436 | prefix, phone and timestamp joined by dashes, in the id alphabet |
| SheetsMirror.SanitizeIdempotent | server/src/services/googleSheets.js:408 | sanitising twice is sanitising once |
| SheetsMirror.StableIdCollides | server/src/services/googleSheets.js:408 | two different phones can share an id |
| SheetsMirror.CountAt | server/src/services/googleSheets.js:416-417 | a missing count reads as 0 |
| SheetsMirror.ParseQuickSheet | server/src/services/googleSheets.js:402-429 | at most one listed estimate per data row |
| SheetsMirror.ParseConsultationSheet | server/src/services/googleSheets.js:432-464 | at most one listed estimate per data row |
| SheetsMirror.QuickRoundTrip | server/src/services/googleSheets.js:105-121 | parsing a built quick row gives back every field the builder wrote (also lines 402-429) |
| SheetsMirror.ConsultationRoundTrip | server/src/services/googleSheets.js:130-145 | parsing a built consultation row gives back every field the builder wrote (also lines 432-456) |
| SheetsMirror.UntimedRowsDropped | server/src/services/googleSheets.js:403 | a row without a timestamp is not listed |
| SheetsMirror.InsertedRowListedFirst | server/src/services/googleSheets.js:157-183 | a newly mirrored row is the first estimate listed (also lines 402-429) |
| SheetsMirror.QuestionRow | server/src/services/googleSheets.js:493-500 | six cells: id, time, phone, question, `X`, IP |
| SheetsMirror.FindRow | server/src/services/googleSheets.js:601-651 | the first row whose column A is the id, or none |
| SheetsMirror.SetCell | server/src/services/googleSheets.js:605-613 | writes one cell and keeps the others |
| SheetsMirror.MondayOffset | server/src/services/googleSheets.js:306-307 | 0 to 6 days back to a Monday |
| SheetsMirror.WeekRange | server/src/services/googleSheets.js:305-315 | Monday on or before today, and Sunday six days later |
| SheetsMirror.MondayOnOrBefore | server/src/services/googleSheets.js:305-310 | the week start is a Monday for every day number |
| SheetsMirror.Spreadsheet.constructor | server/src/services/googleSheets.js:204-280 | each sheet starts with its header; no question sheet |
| SheetsMirror.Spreadsheet.AddPriceEstimate | server/src/services/googleSheets.js:73-201 | a body missing its contact info, current selection or appointment writes nothing and is only reported; otherwise quick estimates go to the quick sheet, others to the SALT sheet, at the top, with the duplicate memo |
| SheetsMirror.Spreadsheet.AddCustomerQuestion | server/src/services/googleSheets.js:479-581 | creates the question sheet with its header if needed; the question becomes row 2 |
| SheetsMirror.WithQuestion | server/src/services/googleSheets.js:479-581 | the question sheet after an added question holds the header and the new row second |
| SheetsMirror.AddedQuestionFoundFirst | server/src/services/googleSheets.js:584-621 | a freshly added question is the first data row found under its id |
| SheetsMirror.Spreadsheet.UpdateQuestionReadStatus | server/src/services/googleSheets.js:584-621 | column E of the first matching row becomes `O` or `X`; not found leaves the sheet unchanged |
| SheetsMirror.Spreadsheet.DeleteCustomerQuestion | server/src/services/googleSheets.js:624-675 | removes the first matching row only; not found leaves the sheet unchanged |
| SheetsMirror.ReadUpdateTouchesOneCell | server/src/services/googleSheets.js:600-613 | the read update touches one cell of one row |
| SheetsMirror.DeleteRemovesOneRow | server/src/services/googleSheets.js:650-670 | deleting removes exactly the matching row and shifts the later rows up |
| Estimates.FirstField | server/src/controllers/priceEstimateController.js:11 | the text before the first comma, which holds no comma |
| Estimates.FirstFieldStops | server/src/controllers/priceEstimateController.js:11 | the first field of `a,b` is `a` whenever `a` holds no comma |
| Estimates.ClientIp | server/src/controllers/priceEstimateController.js:11-14 | first hop of x-forwarded-for, else x-real-ip, else the connection, else the socket |
| Estimates.ClientIpFirstHop | server/src/controllers/priceEstimateController.js:11 | behind several proxies, the first hop is kept |
| Estimates.Prepared | server/src/controllers/priceEstimateController.js:17-19 | type set by the route; converted forced true on the record and on the details the mirror writes; IP recorded in both; every other detail as sent; submittedAt and status defaulted (also lines 83-85) |
| Estimates.ClientFieldsIgnored | server/src/controllers/priceEstimateController.js:17-19 | bodies differing only in the client's type, converted flag and IP, on the record or in the details, prepare the same estimate (also lines 83-85) |
| Estimates.QuickMirrorAlwaysConverted | server/src/controllers/priceEstimateController.js:83-85 | a quick estimate is mirrored with `O` in the conversion column, whatever the client sent |
| Estimates.EstimateService.constructor | server/src/models/PriceEstimate.js:1-54 | no estimates |
| Estimates.EstimateService.Submit | server/src/controllers/priceEstimateController.js:6-135 | the mirror write starts first and lands only for a body with contact info, current selection and appointment; a valid estimate is stored; 201 even when the database fails |
| Estimates.LandingConsultationSavedNotMirrored | client/src/components/Landing/LandingPage.js:547-560 | the consultation form's body is never mirrored, and it is saved exactly when the database is available |
| Estimates.LandingScheduleMirrored | client/src/components/Landing/LandingPage.js:275-290 | the schedule modal's body is mirrored |
| Landing.ConsultationSubmission | client/src/components/Landing/LandingPage.js:547-560 | the consultation body carries contact info and selection but no appointment |
| Landing.ScheduleSubmission | client/src/components/Landing/LandingPage.js:275-290 | the schedule body carries all three objects, with the chosen date and time |
| Estimates.EstimateService.UpdateStatus | server/src/controllers/priceEstimateController.js:177-206 | only the status changes, to whatever string was sent; missing gives 404 |
| Estimates.EstimateService.GetEstimate | server/src/controllers/priceEstimateController.js:154-175 | the stored estimate, or 404 |
| Estimates.EstimateService.ListEstimates | server/src/controllers/priceEstimateController.js:137-152 | each stored estimate exactly once per id holding it, and nothing else, latest submittedAt first |
| Estimates.SubmitRoutesPublic | server/src/routes/priceEstimates.js:7-8 | both submit routes are open to anyone |
| Estimates.ReadRoutesNeedSignIn | server/src/routes/priceEstimates.js:11-14 | every other route answers 401 without a token |
| Estimates.SegmentKinds | server/src/routes/priceEstimates.js:7-14 | `:id` is a parameter; `sheets`, `quick` and `status` are literal segments |
| Estimates.SheetsBeforeId | server/src/routes/priceEstimates.js:12-13 | `sheets` reaches the sheet listing, not the by-id handler |
| Estimates.OtherSegmentIsId | server/src/routes/priceEstimates.js:13 | any other single segment is an id |
| Estimates.NoDeleteRoute | server/src/routes/priceEstimates.js:7-14 | no route deletes an estimate |
| Routing.FirstMatch | server/src/routes/priceEstimates.js:7-14 | the first registered route whose verb and pattern match |
| Routing.Admit | server/src/routes/serviceRequests.js:13-22 | a gated route answers 401 without a caller and 403 for the wrong role |
| Routing.Access | server/src/controllers/serviceRequestController.js:76-79 | only a customer who is not the owner is refused, with 403 |
| Routing.Dispatch | server/src/routes/serviceRequests.js:13-22 | the first matching route's gate decides between refusal and its handler |
| EditHistory.SetIfGiven | server/src/controllers/serviceRequestController.js:121-122 | a field is set only when a non-empty value was sent |
| EditHistory.Record | server/src/controllers/serviceRequestController.js:110-118 | one entry more exactly when a note was given, recording editor, time, previous and new status; earlier entries kept |
| EditHistory.RecordsAppendOnly | server/src/controllers/serviceRequestController.js:110-118 | over any sequence of updates, every entry stays where it was |
| EditHistory.ReplayCountsNotes | server/src/controllers/serviceRequestController.js:110-118 | the history grows by the number of updates that carried a note |
| ServiceRequests.ParseCategory | server/src/models/ServiceRequest.js:37-41 | exactly the five category names parse |
| ServiceRequests.ParseStatus | server/src/models/ServiceRequest.js:42-46 | exactly the four status names parse |
| ServiceRequests.ParsePriority | server/src/models/ServiceRequest.js:47-51 | exactly the four priority names parse |
| ServiceRequests.NamesParse | server/src/models/ServiceRequest.js:37-51 | each name parses back to its member |
| ServiceRequests.ParseOr | server/src/models/ServiceRequest.js:37-51 | an absent value takes the default |
| ServiceRequests.NewRequest | server/src/controllers/serviceRequestController.js:6-26 | owned by the caller, pending, trimmed, with the product information as sent and updatedAt equal to createdAt; refused when subject or description is blank or an enum is unknown |
| ServiceRequests.Edited | server/src/controllers/serviceRequestController.js:91-142 | employees change only status and priority, plus a history entry for a note; customers only subject, description and product info |
| ServiceRequests.EmployeeNoteIffEntry | server/src/controllers/serviceRequestController.js:104-118 | an employee update adds an entry iff a note is given, even when the status changes |
| ServiceRequests.ServiceRequestStore.constructor | server/src/models/ServiceRequest.js:1-75 | no requests |
| ServiceRequests.ServiceRequestStore.Create | server/src/controllers/serviceRequestController.js:6-26 | stores the new request with 201, or 500 and no change when validation fails |
| ServiceRequests.ServiceRequestStore.List | server/src/controllers/serviceRequestController.js:31-61 | exactly the caller's own requests for customers, all for employees, filtered, each once per id holding it, newest first |
| ServiceRequests.ServiceRequestStore.Get | server/src/controllers/serviceRequestController.js:66-86 | 404 when missing, 403 for a customer who is not the owner |
| ServiceRequests.ServiceRequestStore.Update | server/src/controllers/serviceRequestController.js:91-142 | 404 when missing, 403 for a foreign customer, else the edit is saved with a new updatedAt, or 500 and no change |
| ServiceRequests.ServiceRequestStore.Delete | server/src/controllers/serviceRequestController.js:147-162 | removes the request; 404 when missing |
| ServiceRequests.EveryRouteNeedsSignIn | server/src/routes/serviceRequests.js:13 | no route serves a caller without a token |
| ServiceRequests.RoleGates | server/src/routes/serviceRequests.js:15-22 | POST for customers only, DELETE for employees only, the rest for any role |
| EmailPattern.DottedIff | server/src/models/ContactForm.js:36-39 | the dotted-label part of the pattern accepts exactly the flat description |
| EmailPattern.DomainIff | server/src/models/ContactForm.js:36-39 | the domain part of the pattern accepts exactly the flat description |
| EmailPattern.EmailIff | server/src/models/ContactForm.js:36-39 | the e-mail pattern accepts exactly the addresses of the flat description |
| EmailPattern.OneAt | server/src/models/ContactForm.js:36-39 | an accepted address holds exactly one `@` |
| EmailPattern.AcceptsPlainAddress | server/src/models/ContactForm.js:36-39 | `kim.lee@salt-co.kr` is accepted |
| EmailPattern.RefusesShortTopLevel | server/src/models/ContactForm.js:36-39 | a one-letter top-level domain is refused |
| EmailPattern.RefusesPlus | server/src/models/ContactForm.js:36-39 | any address containing `+` is refused |
| ContactForms.ParseFormStatus | server/src/models/ContactForm.js:55-59 | exactly the four status names parse |
| ContactForms.FormStatusNamesParse | server/src/models/ContactForm.js:55-59 | each name parses back to its member |
| ContactForms.Required | server/src/models/ContactForm.js:27-54 | a required trimmed field is missing when absent or blank |
| ContactForms.NewForm | server/src/controllers/contactFormController.js:6-26 | owned by the caller, status new, fields trimmed; refused when a required field is blank or the e-mail fails the pattern |
| ContactForms.NewFormFollowsPattern | server/src/models/ContactForm.js:32-40 | a stored e-mail matches the regular expression |
| ContactForms.Updated | server/src/controllers/contactFormController.js:93-111 | only status and history change; a note adds one entry; an unknown status refuses the save |
| ContactForms.UpdateEntryNamesStatuses | server/src/controllers/contactFormController.js:96-104 | the entry records the status before and after |
| ContactForms.RefusedStatusRecordsNothing | server/src/controllers/contactFormController.js:106-111 | an unknown status leaves the form unchanged |
| ContactForms.ContactFormStore.constructor | server/src/models/ContactForm.js:1-78 | no forms |
| ContactForms.ContactFormStore.Create | server/src/controllers/contactFormController.js:6-26 | stores the new form with 201, or 500 and no change |
| ContactForms.ContactFormStore.List | server/src/controllers/contactFormController.js:31-55 | the caller's own forms for customers, all for employees, status filter, each once per id holding it, newest first |
| ContactForms.ContactFormStore.Get | server/src/controllers/contactFormController.js:60-80 | 404 when missing, 403 for a customer who is not the owner |
| ContactForms.ContactFormStore.Update | server/src/controllers/contactFormController.js:85-120 | 404 when missing; otherwise the edit is saved with a new updatedAt, or 500 and no change |
| ContactForms.ContactFormStore.Delete | server/src/controllers/contactFormController.js:125-140 | removes the form; 404 when missing |
| ContactForms.EveryFormRouteNeedsSignIn | server/src/routes/contactForms.js:13 | no route serves a caller without a token |
| ContactForms.FormRoleGates | server/src/routes/contactForms.js:15-22 | POST for customers, PUT and DELETE for employees, reads for any role |
| Accounts.ParseRole | server/src/routes/auth.js:24 | an absent role is customer; only the two role names are accepted |
| Accounts.ValidateRegistration | server/src/routes/auth.js:19-25 | accepted iff name and phone are not blank, the trimmed username has 3+ characters, the password 6+ and the role is known |
| Accounts.VerifyEmployeeCode | server/src/controllers/authController.js:16-21 | a missing code gives 400 and not valid; otherwise valid iff it equals the configured code |
| Accounts.GateAgreesWithVerify | server/src/controllers/authController.js:16-58 | registration's code gate and the verify endpoint agree |
| Accounts.UnsetCodeAdmitsMissingCode | server/src/controllers/authController.js:56-58 | with no configured code, an employee registering without a code passes the gate |
| Accounts.NewUser | server/src/controllers/authController.js:67-75 | username stored lower-cased; pending approval exactly for employees |
| Accounts.RegisterDecision | server/src/controllers/authController.js:46-100 | invalid, then wrong code, then taken (case-insensitively), else the new user |
| Accounts.RegisterStatus | server/src/controllers/authController.js:56-94 | 400 for invalid or taken, 403 for a wrong code, 202 for an employee, 201 for a customer |
| Accounts.SurroundingSpacesFoolCheck | server/src/controllers/authController.js:26-64 | a name with a leading space is reported available yet is taken at registration |
| Accounts.NoCaseTwins | server/src/controllers/authController.js:61-64 | two stored accounts never share a lower-cased username |
| Accounts.AddKeepsDistinct | server/src/controllers/authController.js:61-75 | adding a lower-cased, available username keeps usernames unique regardless of case |
| Accounts.RegisterKeepsUsernamesDistinct | server/src/controllers/authController.js:61-75 | registration keeps usernames unique regardless of case |
| Accounts.LoginStatus | server/src/controllers/authController.js:105-146 | 400 without username or password, 401 for unknown or wrong, 403 for a pending employee, else 200 |
| Accounts.LoginOrdering | server/src/controllers/authController.js:117-131 | the password is checked before the approval status |
| Accounts.AccountStore.constructor | server/src/controllers/authController.js:1-21 | no accounts; the configured code is fixed |
| Accounts.AccountStore.CheckUsername | server/src/controllers/authController.js:26-41 | 400 without a name; otherwise available iff no account holds its lower-cased form |
| Accounts.AccountStore.Register | server/src/controllers/authController.js:46-100 | status from the decision; the account is added only when accepted; a token only for customers |
| Accounts.AccountStore.Login | server/src/controllers/authController.js:105-146 | status as decided; a token for the account exactly on 200 |
| Accounts.AccountStore.PendingEmployees | server/src/controllers/authController.js:151-159 | exactly the employees awaiting approval |
| Accounts.AccountStore.Approve | server/src/controllers/authController.js:164-177 | the account becomes active; 404 when missing |
| Accounts.AccountStore.Reject | server/src/controllers/authController.js:182-191 | the account is removed; 404 when missing |
| Accounts.AccountStore.UpdatePassword | server/src/controllers/authController.js:232-255 | a wrong current password gives 401 and no change; otherwise the password is replaced |
| Accounts.AnonymousReachesOnlyPublic | server/src/routes/auth.js:32-44 | without a token only the four public routes are served |
| Accounts.RegisterIsPublic | server/src/routes/auth.js:35 | registration needs no token |
| Accounts.ApprovalNeedsNoRole | server/src/routes/auth.js:43 | any signed-in caller, a customer included, reaches approval |
| Accounts.RejectionNeedsNoRole | server/src/routes/auth.js:44 | any signed-in caller reaches rejection |
| RegisterForms.Contains | client/src/components/Auth/EmployeeRegister.js:72-74 | a character-class test matches iff some character satisfies it |
| RegisterForms.CheckPassword | client/src/components/Auth/EmployeeRegister.js:69-76 | minLength iff 6+ characters; hasNumber, hasLetter and hasSpecial iff some ASCII digit, ASCII letter or listed special character |
| RegisterForms.SpecialNotRequired | client/src/components/Auth/EmployeeRegister.js:128 | a password without special characters is strong enough to submit |
| RegisterForms.With | client/src/components/Auth/EmployeeRegister.js:66 | the edited input takes the value; every other input keeps its own |
| RegisterForms.FirstFailure | client/src/components/Auth/EmployeeRegister.js:112-131 | the error of the first failing check in order; none iff all pass |
| RegisterForms.FirstFailureAt | client/src/components/Auth/EmployeeRegister.js:112-131 | when check k is the first to fail, its error is reported |
| RegisterForms.EmployeeSubmitError | client/src/components/Auth/EmployeeRegister.js:112-131 | missing code, then unchecked username, then mismatch, then weak password; a verified code is not required |
| RegisterForms.CustomerSubmitError | client/src/components/Auth/CustomerRegister.js:89-108 | unchecked username, then mismatch, then weak password, then a code other than `15220687` |
| RegisterForms.EmployeeRequest | client/src/components/Auth/EmployeeRegister.js:135-142 | the body carries role `employee` and the typed code |
| RegisterForms.CustomerRequest | client/src/components/Auth/CustomerRegister.js:112-118 | the body carries role `customer` and no code |
| RegisterForms.EmployeeSubmitsOnlyStrongPasswords | client/src/components/Auth/EmployeeRegister.js:112-131 | a submitted password matches its confirmation and has 6+ characters, a digit and a letter |
| RegisterForms.CustomerSubmitsOnlyStrongPasswords | client/src/components/Auth/CustomerRegister.js:89-108 | the same, and the customer code was `15220687` |
| RegisterForms.CustomerBodyPassesCodeGate | client/src/components/Auth/CustomerRegister.js:112-118 | a customer body never meets the server's employee-code gate |
| RegisterForms.EmployeeAfterReply | client/src/components/Auth/EmployeeRegister.js:144-152 | a pending account shows the message instead of navigating |
| RegisterForms.CustomerAfterReply | client/src/components/Auth/CustomerRegister.js:120-124 | any success navigates; a failure shows the message |
| RegisterForms.UsernameEditNeedsRecheck | client/src/components/Auth/EmployeeRegister.js:79-118 | after a username edit the next submit is refused as unchecked |
| RegisterForms.EmployeeRegisterForm.constructor | client/src/components/Auth/EmployeeRegister.js:10-56 | empty fields, nothing checked, the summary of the empty password |
| RegisterForms.EmployeeRegisterForm.OnChange | client/src/components/Auth/EmployeeRegister.js:64-82 | the input changes; a password edit recomputes the summary; a username edit forgets availability |
| RegisterForms.EmployeeRegisterForm.OnCodeChange | client/src/components/Auth/EmployeeRegister.js:179 | the code changes and is no longer verified |
| RegisterForms.EmployeeRegisterForm.VerifyCode | client/src/components/Auth/EmployeeRegister.js:29-48 | an empty code is refused without asking; otherwise verified iff the server says valid |
| RegisterForms.EmployeeRegisterForm.CheckAvailability | client/src/components/Auth/EmployeeRegister.js:84-106 | a name under 3 characters is refused without asking; otherwise the server's answer is kept |
| RegisterForms.EmployeeRegisterForm.Submit | client/src/components/Auth/EmployeeRegister.js:108-142 | the first failing check sets its error and nothing is sent; otherwise the employee body is sent |
| RegisterForms.EmployeeRegisterForm.Finish | client/src/components/Auth/EmployeeRegister.js:144-154 | shows the pending message, navigates, or shows the server's error |
| RegisterForms.CustomerRegisterForm.constructor | client/src/components/Auth/CustomerRegister.js:10-31 | empty fields, nothing checked |
| RegisterForms.CustomerRegisterForm.OnChange | client/src/components/Auth/CustomerRegister.js:41-59 | the input changes; password and username edits as on the employee page |
| RegisterForms.CustomerRegisterForm.CheckAvailability | client/src/components/Auth/CustomerRegister.js:61-83 | a name under 3 characters is refused without asking |
| RegisterForms.CustomerRegisterForm.Submit | client/src/components/Auth/CustomerRegister.js:85-118 | the first failing check sets its error; otherwise the customer body is sent |
| RegisterForms.CustomerRegisterForm.Finish | client/src/components/Auth/CustomerRegister.js:120-126 | navigates on success, else shows the error |
| Common.OrDefault | server/src/routes/notifications.js:11-37 | JavaScript's or-default: the value when non-empty, else the fallback |
| Common.NatToString | server/src/services/googleSheets.js:56-60 | a non-empty string of decimal digits; one digit for n below 10 |
| Common.NatToStringValue | server/src/services/googleSheets.js:56-60 | the text denotes n in decimal and has no leading zero |
| Common.Trim | server/src/models/ServiceRequest.js:30-35 | the result neither starts nor ends with white space and is no longer than the input |
| Common.TrimIsSlice | server/src/models/ServiceRequest.js:30-35 | the trimmed text is a slice of the input, and everything before and after that slice is white space |
| Common.TrimIdempotent | server/src/models/ServiceRequest.js:30-35 | trimming twice is trimming once |
| Common.ToLower | server/src/controllers/authController.js:61 | same length; each ASCII capital becomes its lower case, other characters are kept |
| Common.ToLowerIdempotent | server/src/controllers/authController.js:61 | lower-casing twice is lower-casing once |
| Common.Filter | server/src/controllers/serviceRequestController.js:33-49 | the elements of the input that satisfy the query, each as often as in the input, in their order |
| Common.SortDesc | server/src/controllers/serviceRequestController.js:54 | a permutation of the input |
| Common.SortDescSorted | server/src/controllers/serviceRequestController.js:54 | sorted by the key, largest first |
| Common.Digits | client/src/components/Landing/LandingPage.js:334 | only digits; an all-digit input is kept whole |
| Common.DigitsInOrder | client/src/components/Landing/LandingPage.js:334 | the result is a subsequence of the input holding each digit as often as the input does: the digits, in order |
| Common.Without | client/src/components/Landing/PriceEstimate.js:89-91 | no `c` is left, and nothing new appears |
| Common.WithoutInOrder | client/src/components/Landing/PriceEstimate.js:89-91 | the result is a subsequence of the input keeping every other element as often as the input does, in order |

## Left out

- The Google Sheets API transport is not modelled: authentication, the lazy
  `sheets` handle, and the get, batchUpdate and values calls. Sheets are
  in-memory sequences of rows. A failing call, which the code answers with
  an empty memo or `false`, is not modelled either.
- Clocks are parameters. This covers `toLocaleString` timestamps and
  `toLocaleDateString` appointment dates, which become opaque strings, and
  the Korean-time conversion of the chat-hours check, which takes the
  weekday, hour and minute as parameters. `countEntries`' date parsing is
  left out because it depends on how the host parses dates.
- E-mail sending, the daily cron job and the chat summary mail are left out:
  they only build HTML and send it.
- The landing page's polling intervals, timers, scrolling and the animated
  counter are left out. So are the question forms (`handleQuestionSubmit`,
  `handleInlineQuestionSubmit`), which post without any check and reset.
- The landing page's calendar is modelled once, in `BusinessCalendar`. Its
  code repeats the wizard's.
- Fire-and-forget promise ordering and concurrency are left out, such as
  two employees accepting the same chat. All operations run one at a time.
- Mongoose specifics are left out: ObjectId cast errors on malformed ids,
  `populate`, and database failures other than validation.
- Accounts.AccountStore.Register: password hashing is the identity, and the
  JWT is a `Token` record holding the account id.
- Accounts.AccountStore.UpdatePassword: a missing current or new password
  is not distinguished from a wrong one. The User schema's own validation
  (server/src/models/User.js) is not part of this model.
- `getMe` and `updateDetails` are left out. They read or overwrite profile
  fields with no rule worth stating.
- The token-checking middleware (server/src/middleware/auth.js) is not part
  of this model. Its behaviour is assumed: 401 without a valid token, and
  403 when `authorize` lists another role.
- Username lengths count Dafny characters, not the UTF-16 code units that
  JavaScript counts.
- RegisterForms: the browser's `required` attribute, which blocks submission
  while a field is empty, is not modelled. The reply handling of the
  registration call is a parameter, because client/src/context/AuthContext.js
  is not part of this model.
- Landing.CalculateCustomerCount: the last day the loop reaches is a
  parameter. The loop starts at UTC midnight of 2024-01-01 and compares
  against the current local time, so the last day counted depends on the
  browser's time zone and time of day.
- Estimates.EstimateService.Submit does not model which of the Sheets mirror
  and the database finishes first.
- Common.ToLower: only the ASCII capitals A to Z are folded, while
  JavaScript's `toLowerCase` folds every Unicode capital and can change the
  length. In the model, usernames that differ in the case of other letters
  (`Äb` and `äb`) count as different names, so `Accounts.NoCaseTwins` and
  `Accounts.RegisterKeepsUsernamesDistinct` promise uniqueness up to ASCII
  case only.
