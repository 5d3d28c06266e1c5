# RClinic in Dafny

RClinic is a single-page clinic website: a hash router, public listings of offers, coupons
and associated brands, a specialist search with a booking wizard, a coupon generator and
verifier, a referral programme, a results portal, and staff back-offices (the medical agenda
dashboard, the weekly slot editor and the admin CRUD pages). Everything lives in the browser's
memory: shared module-level arrays and React component state.

This project models that logic in Dafny. Each component becomes a module (or a part of one):

- Component state updated by handlers becomes a `class` whose fields are that state, with one
  method per handler.
- Derivations (`filter`, `find`, `map`, `sort`, `reduce` chains, `useMemo` values) become
  functions.
- The properties the screens rely on are proved as contracts and lemmas.

| module | file | models |
|---|---|---|
| `Base` | base.dfy | `Option`, visibility, JavaScript truthiness of optional fields |
| `Strings` | strings.dfy | string order, ASCII case mapping, whitespace, `split(...)[0]`, `parseInt(s, 10)`, decimal printing |
| `Lists` | lists.dfy | `filter`, `find`, `findIndex`, counting, and `sort` by a string key (ascending or descending) |
| `Types` | types.dfy | the records of `types.ts` and the date-to-slots table of a specialist |
| `LocalDates` | local_dates.dfy | `toLocalYYYYMMDD` and the agreement of key order with calendar order |
| `Router` | router.dfy | the hash router of `App.tsx` |
| `MedicalAgenda` | agenda.dfy | login, scoping, day buckets, statistics, grouping and the status machine of the agenda |
| `SpecialistResults` | booking.dfy | the specialist search and the booking wizard |
| `Coupons` | coupons.dfy | coupon generation, verification, redemption and the redemption history |
| `ScheduleConfig` | schedule_config.dfy | the weekly slot editor |
| `AdminLists` | admin.dfy | the six admin CRUD pages as one generic page, with the centre slug and the password merge |
| `Referrers` | referrers.dfy | referrer approval, sign-up and the referral portal |
| `Forms` | forms.dfy | the user, associate and specialist forms |
| `Listings` | listings.dfy | the public filters, the results portal and the scheduling form |

The inputs the browser supplies are parameters of the model:

- The clock ("today", "now", the day-bucket keys) is a parameter.
- `Math.random()` strings and `Date.now()` ids are parameters.
- The answer to `window.confirm` is a `bool` parameter.
- The value of a query-string parameter is a parameter.

## Model

| member | source | states |
|---|---|---|
| Router.PathOf | App.tsx:61 | the path is the part of the route before any `?`: a prefix of the route with no `?` in it |
| Router.Dispatch | App.tsx:63-93 | every page but Home is reached from exactly its own literal path; anything else renders Home |
| Router.DispatchExact | App.tsx:63-93 | a page's literal path dispatches to it, and only that path does |
| Router.QueryIgnored | App.tsx:61 | appending a query string changes neither the path nor the page rendered |
| Router.ScrollIffPageRoute | App.tsx:53-58 | the view scrolls to the top exactly when the route starts with `#/` |
| Router.PageLinkRoutes | App.tsx:61-91 | a page's path followed by any query renders that page |
| Router.CouponLinkRoutes | components/FeaturedOffers.tsx:49 | the coupon card's link renders the coupon detail page |
| Router.SearchLinkRoutes | src/components/SchedulingPage.tsx:30 | the scheduling form's search link renders the specialist results page |
| Base.Toggled | components/ManageAssociates.tsx:14 | the visibility toggle always changes the visibility |
| Strings.ToUpper | components/CouponVerifierPage.tsx:29 | `toUpperCase` keeps the length and upper-cases each character |
| Strings.ToLower | src/components/MedicalAgendaPage.tsx:13 | `toLowerCase` keeps the length and lower-cases each character |
| Strings.ToUpperIsUpper | components/ReferralPage.tsx:25 | an upper-cased string is upper case, and upper-casing leaves exactly the upper-case strings unchanged |
| Strings.UpperOfLower | components/CouponVerifierPage.tsx:29 | comparing upper-cased forms ignores any earlier lower-casing |
| Strings.BeforeFirst | components/ReferralPage.tsx:25 | `split(c)[0]` is the longest prefix without `c`, ended by a `c` or by the end of the string |
| Strings.DropSpaces | components/ManageMedicalCenters.tsx:40 | whitespace is skipped: the result is a suffix starting with a non-space, after only spaces |
| Strings.ParseIntOfDecimal | components/CouponDetailPage.tsx:16 | `parseInt` reads back any integer printed in decimal |
| Lists.Find | src/components/ReferralDashboardPage.tsx:12 | `find` returns a match exactly when one exists, and that match is the first one |
| Lists.FindIndex | components/CouponVerifierPage.tsx:59 | `findIndex` returns the first matching index, or -1 exactly when nothing matches |
| Lists.SortBy | src/components/RedemptionHistory.tsx:16 | `sort` by a string key returns a permutation of its input, ordered by that key |
| Lists.FilterMembers | src/components/MedicalAgendaPage.tsx:132 | `filter` keeps exactly the members that pass the test |
| LocalDates.PadStart | src/components/SpecialistResultsPage.tsx:11-12 | `padStart` pads on the left with the fill character to the width and keeps the string as its suffix |
| LocalDates.KeyFields | src/components/SpecialistResultsPage.tsx:9-14 | the key is the 4-digit year, `-`, the 2-digit month counted from 1, `-`, the 2-digit day |
| LocalDates.KeyLength | src/components/SpecialistResultsPage.tsx:9-14 | a key has ten characters, with dashes at positions 4 and 7 |
| LocalDates.KeyOrder | src/components/SpecialistResultsPage.tsx:9-14 | string order of keys is calendar order, and equal keys are equal dates |
| LocalDates.KeyNotBefore | src/components/SpecialistResultsPage.tsx:68 | `date >= todayStr` holds exactly when the date is not before today |
| MedicalAgenda.FindUser | src/components/MedicalAgendaPage.tsx:13 | the first user whose username matches case-insensitively, and none exactly when no username matches |
| MedicalAgenda.LoginView.constructor | src/components/MedicalAgendaPage.tsx:7-9 | the login view starts with empty inputs, no error and nobody logged in |
| MedicalAgenda.LoginView.EditUsername | src/components/MedicalAgendaPage.tsx:47 | typing sets the username and nothing else |
| MedicalAgenda.LoginView.EditPassword | src/components/MedicalAgendaPage.tsx:65 | typing sets the password and nothing else |
| MedicalAgenda.LoginView.Submit | src/components/MedicalAgendaPage.tsx:11-20 | when the handler runs, a known username logs in that user whatever the password; an unknown one sets the error and logs nobody in (the browser's `required` check in front is not modelled) |
| MedicalAgenda.LoginView.Logout | src/components/MedicalAgendaPage.tsx:491 | logging out leaves nobody logged in, and the login view remounts with empty inputs and no error |
| MedicalAgenda.IdsOf | src/components/MedicalAgendaPage.tsx:127 | the ids of the centre's doctors, one per doctor |
| MedicalAgenda.ScopeIds | src/components/MedicalAgendaPage.tsx:122-131 | a doctor bound to a specialist sees only that id; otherwise `all` means every doctor of the centre, and any other choice means its parsed id |
| MedicalAgenda.Scoped | src/components/MedicalAgendaPage.tsx:132 | exactly the appointments of the specialists in scope |
| MedicalAgenda.Listed | src/components/MedicalAgendaPage.tsx:169-191 | exactly the scoped appointments in the chosen bucket, sorted by time, as a permutation of the filter |
| MedicalAgenda.WeekWindow | src/components/MedicalAgendaPage.tsx:157-159 | the week bucket holds a date exactly when it is not before today and is before the end of the week |
| MedicalAgenda.StatusCountsSum | src/components/MedicalAgendaPage.tsx:135-141 | the per-status counts add up to the number of appointments |
| MedicalAgenda.CalculateStats | src/components/MedicalAgendaPage.tsx:135-141 | the accumulator's total is the length, each per-status field counts that status, and they sum to the total |
| MedicalAgenda.GroupByDate | src/components/MedicalAgendaPage.tsx:193-201 | one group per date present, each holding exactly that date's appointments in list order, time order kept |
| MedicalAgenda.SortedDates | src/components/MedicalAgendaPage.tsx:203 | the group dates in ascending order, as a permutation |
| MedicalAgenda.GroupOfEach | src/components/MedicalAgendaPage.tsx:193-201 | an appointment is in a date's group exactly when it is listed on that date |
| MedicalAgenda.WithStatus | src/components/MedicalAgendaPage.tsx:108-114 | only the appointments with that id change, and only their status |
| MedicalAgenda.AnswersAreFinal | src/components/MedicalAgendaPage.tsx:421-433 | the buttons move only an open appointment, and only to a different status other than `agendada` |
| MedicalAgenda.AnswerSteps | src/components/MedicalAgendaPage.tsx:421-433 | an answer button changes only appointments with the card's id, never to `agendada`, moves the card along a transition, and with ids unique changes only reminded appointments |
| MedicalAgenda.SendReminders | src/components/MedicalAgendaPage.tsx:218-226 | every `agendada` appointment on that date becomes `recordatorio-enviado`; all others are unchanged |
| MedicalAgenda.RemindersCounts | src/components/MedicalAgendaPage.tsx:220-226 | after sending, none is left pending on that date, and the reminded count grows by exactly the number that were pending |
| MedicalAgenda.PendingInGroupIsPendingOn | src/components/MedicalAgendaPage.tsx:211-212 | the modal's count is the number of `agendada` appointments on that date among those listed |
| MedicalAgenda.ReminderReach | src/components/MedicalAgendaPage.tsx:218-226 | the modal never announces more reminders than the bulk update sends |
| MedicalAgenda.Dashboard.constructor | src/components/MedicalAgendaPage.tsx:88-91 | the dashboard starts on today, all doctors, the seed appointments and a closed modal |
| MedicalAgenda.Dashboard.SelectBucket | src/components/MedicalAgendaPage.tsx:263 | choosing a bucket changes only the bucket |
| MedicalAgenda.Dashboard.SelectDoctor | src/components/MedicalAgendaPage.tsx:353 | an administrator choosing a doctor changes only the doctor filter |
| MedicalAgenda.Dashboard.UpdateStatus | src/components/MedicalAgendaPage.tsx:108-114 | the appointments become `WithStatus` of the old ones, and nothing else changes |
| MedicalAgenda.Dashboard.Answer | src/components/MedicalAgendaPage.tsx:421-433 | a click on a reminded card's answer button applies `handleUpdateStatus`; only appointments with the card's id change, none to `agendada`, and the card moves along a transition |
| MedicalAgenda.Dashboard.Statistics | src/components/MedicalAgendaPage.tsx:143-167 | for today, tomorrow and the week alike, the card's total and its count of each of the five statuses are those of the scoped appointments in that bucket |
| MedicalAgenda.DaySections | src/components/MedicalAgendaPage.tsx:193-203 | for a time-sorted list, a date has a group exactly when some appointment is on it; the dates are ascending and distinct, one per group, and each group is that date's appointments in time order |
| MedicalAgenda.Dashboard.Sections | src/components/MedicalAgendaPage.tsx:193-203 | a date has a group exactly when some listed appointment is on it; the dates are ascending and distinct, one per group, and each group is that date's listed appointments in time order |
| MedicalAgenda.Dashboard.OpenReminderModal | src/components/MedicalAgendaPage.tsx:210-216 | the modal opens exactly when the date's group has a pending appointment, and shows their number |
| MedicalAgenda.Dashboard.ShowModal | src/components/MedicalAgendaPage.tsx:214 | the modal opens on that date with that count |
| MedicalAgenda.Dashboard.ConfirmSendReminders | src/components/MedicalAgendaPage.tsx:218-228 | with a date, reminders go to every pending appointment on it across the whole state and the modal closes; with none, nothing happens |
| MedicalAgenda.Dashboard.CancelModal | src/components/MedicalAgendaPage.tsx:457 | cancelling closes the modal and changes nothing else |
| SpecialistResults.CenterIds | src/components/SpecialistResultsPage.tsx:44 | the ids of the centres, position by position |
| SpecialistResults.MatchingCenterIds | src/components/SpecialistResultsPage.tsx:42-44 | exactly the ids of the visible centres in the city whose sector matches, or any sector when none is chosen |
| SpecialistResults.SearchListed | src/components/SpecialistResultsPage.tsx:42-50 | a specialist is listed exactly when visible, of the chosen specialty or any, and at a visible centre in the city and sector |
| SpecialistResults.SearchIsSublist | src/components/SpecialistResultsPage.tsx:46-50 | the search never lists a specialist more often than the data holds it |
| SpecialistResults.SlotDatesMembers | src/components/SpecialistResultsPage.tsx:64-66 | the candidate dates are exactly the keys with a non-empty slot list, in ascending order |
| SpecialistResults.FindInSorted | src/components/SpecialistResultsPage.tsx:68 | the first key not before today in a sorted list is the least such key, and none exactly when none is |
| SpecialistResults.FirstAvailableIsLeast | src/components/SpecialistResultsPage.tsx:63-70 | the selected date is the least date with slots that is not before today, or `''` when there is none |
| SpecialistResults.FirstAvailableIsEarliest | src/components/SpecialistResultsPage.tsx:63-70 | the selected date equals an independent minimum over the availability table |
| SpecialistResults.FirstAvailableNotPast | src/components/SpecialistResultsPage.tsx:63-70 | the selected date is never before today |
| SpecialistResults.NoAvailabilityNoDate | src/components/SpecialistResultsPage.tsx:64-70 | a specialist without availability gets no date |
| SpecialistResults.SeedCandidates | constants.ts:35 | in the seed availability, only the two dates with slots are candidates |
| SpecialistResults.SeedOrder | constants.ts:35 | the seed dates compare in calendar order |
| SpecialistResults.SeedFirstBefore | src/components/SpecialistResultsPage.tsx:63-70 | before the seed dates, the first date with slots is selected |
| SpecialistResults.SeedFirstOn | src/components/SpecialistResultsPage.tsx:63-70 | on a date with slots, that date is selected |
| SpecialistResults.SeedFirstAfter | src/components/SpecialistResultsPage.tsx:63-70 | after every slot, the date is `''` |
| SpecialistResults.WithField | src/components/SpecialistResultsPage.tsx:76-79 | the input's name selects the one patient field that changes |
| SpecialistResults.Wizard.constructor | src/components/SpecialistResultsPage.tsx:22-29 | the wizard starts on the list, empty results, loading, with nothing selected |
| SpecialistResults.Wizard.LoadResults | src/components/SpecialistResultsPage.tsx:32-55 | the parameters are stored, the results are the search, and loading ends |
| SpecialistResults.Wizard.SelectSpecialist | src/components/SpecialistResultsPage.tsx:58-74 | the specialist is selected with the first available date, the time is cleared, and the schedule is shown |
| SpecialistResults.Wizard.ShowSchedule | src/components/SpecialistResultsPage.tsx:59-73 | the schedule view opens on that date with no time chosen |
| SpecialistResults.Wizard.PickDate | src/components/SpecialistResultsPage.tsx:175 | choosing a date, by quick-pick or by picker, clears the time |
| SpecialistResults.Wizard.PickTime | src/components/SpecialistResultsPage.tsx:196 | an offered time becomes the chosen time |
| SpecialistResults.Wizard.GoToPatientData | src/components/SpecialistResultsPage.tsx:201 | the patient form opens only when a time is chosen |
| SpecialistResults.Wizard.BackToSchedule | src/components/SpecialistResultsPage.tsx:211 | back returns to the schedule and keeps every selection |
| SpecialistResults.Wizard.EditPatient | src/components/SpecialistResultsPage.tsx:76-79 | typing changes the named patient field only |
| SpecialistResults.Wizard.ConfirmAppointment | src/components/SpecialistResultsPage.tsx:81-84 | a form with its required fields filled moves to the confirmation, writes nothing and keeps every selection (the browser's check of the optional email's format is not modelled) |
| SpecialistResults.Wizard.ResetFlow | src/components/SpecialistResultsPage.tsx:86-92 | reset returns to the list and clears the specialist, date, time and patient |
| SpecialistResults.StartBooking | src/components/SpecialistResultsPage.tsx:58-74 | selecting a specialist, picking an offered time and advancing reaches the patient form |
| SpecialistResults.BookingRun | src/components/SpecialistResultsPage.tsx:58-84 | the whole flow with a complete patient reaches the confirmation with the chosen specialist, date and time |
| Coupons.Lookup | components/CouponVerifierPage.tsx:29 | an instance whose code matches case-insensitively, and none exactly when no code matches |
| Coupons.TemplateOf | components/CouponVerifierPage.tsx:36 | the coupon with that id, and none exactly when there is none |
| Coupons.Classify | components/CouponVerifierPage.tsx:28-53 | invalid without an instance or template; otherwise redeemed before expired before valid |
| Coupons.CaseInsensitive | components/CouponVerifierPage.tsx:29 | two codes equal up to case give the same lookup and the same verdict |
| Coupons.VerdictIgnoresCase | components/CouponVerifierPage.tsx:29 | upper- or lower-casing the typed code does not change the verdict |
| Coupons.Stamped | components/CouponVerifierPage.tsx:61-63 | a stamped instance is redeemed now by `Portal de Aliados`, with its identity kept |
| Coupons.MarkRedeemed | components/CouponVerifierPage.tsx:59-64 | only the instance with that id is stamped; length and every other instance are kept |
| Coupons.RedeemThenVerify | components/CouponVerifierPage.tsx:45-46 | after redeeming a verified code, verifying it again says redeemed |
| Coupons.GeneratedCode | components/CouponDetailPage.tsx:25 | the code is `RCLINIC-` followed by the upper-cased random part, all upper case |
| Coupons.NewInstance | components/CouponDetailPage.tsx:28-35 | the new instance carries the code and the coupon id, is active, and is neither redeemed nor claimed |
| Coupons.FreshCodeVerifies | components/CouponDetailPage.tsx:25-39 | a fresh code for an unexpired coupon verifies as valid |
| Coupons.Join | src/components/RedemptionHistory.tsx:8-14 | the row keeps the instance and takes title and brand from its coupon, or `Desconocido` and `N/A` |
| Coupons.JoinAll | src/components/RedemptionHistory.tsx:8-15 | one joined row per instance, position by position |
| Coupons.History | src/components/RedemptionHistory.tsx:6-16 | the redeemed instances joined, as a permutation, one row per redeemed instance, newest first |
| Coupons.HistoryRows | src/components/RedemptionHistory.tsx:6-16 | a row is in the history exactly when it is the join of a redeemed instance |
| Coupons.HistoryCounts | src/components/RedemptionHistory.tsx:6-7 | each redeemed instance appears once for each time it is stored, and an unredeemed one never |
| Coupons.InstanceStore.constructor | components/CouponDetailPage.tsx:39 | the shared instance list starts as given |
| Coupons.Verifier.constructor | components/CouponVerifierPage.tsx:8-13 | the verifier starts idle with an empty code and nothing verified |
| Coupons.Verifier.Reset | components/CouponVerifierPage.tsx:15-20 | reset returns to idle and clears the verified instance, the template and the redeemed flag |
| Coupons.Verifier.EditCode | components/CouponVerifierPage.tsx:145 | typing sets the code and resets the verification |
| Coupons.Verifier.Submit | components/CouponVerifierPage.tsx:22-26 | while not loading, an empty code does nothing; otherwise the state resets, loading starts and that code is pending |
| Coupons.Verifier.Resolve | components/CouponVerifierPage.tsx:28-53 | the status is the verdict, and a verdict other than invalid shows the found instance and its coupon |
| Coupons.Verifier.Redeem | components/CouponVerifierPage.tsx:56-66 | offered only for a valid code not yet redeemed on the page: the verified instance is stamped in the shared list and the button is disabled |
| Coupons.DetailView.constructor | components/CouponDetailPage.tsx:7-9 | the detail page starts with no coupon and no code |
| Coupons.DetailView.Load | components/CouponDetailPage.tsx:11-19 | a present id selects the coupon with that parsed id, or none; an absent id changes nothing |
| Coupons.DetailView.Generate | components/CouponDetailPage.tsx:21-43 | with no coupon nothing happens; otherwise exactly one new instance is appended and its code shown |
| Coupons.GenerateOn | components/CouponDetailPage.tsx:14-42 | opening the detail page on a known coupon and generating stores exactly one instance of it and returns its code |
| Coupons.VerifyOn | components/CouponVerifierPage.tsx:22-53 | typing and submitting a non-empty code ends in the verdict of the classification |
| Coupons.GenerateThenVerify | components/CouponDetailPage.tsx:25-39 | generating a code for an unexpired coupon and verifying it gives valid |
| ScheduleConfig.FirstDoctor | src/components/ScheduleConfigPage.tsx:42-49 | the first doctor of the centre, and none exactly when it has no doctors |
| ScheduleConfig.KnownCenterSelectsDoctor | src/components/ScheduleConfigPage.tsx:6-19 | every listed centre selects a doctor whose id counts as set |
| ScheduleConfig.UnknownCenterSelectsNone | src/components/ScheduleConfigPage.tsx:40-47 | an unlisted centre selects no doctor |
| ScheduleConfig.DoctorSchedule | src/components/ScheduleConfigPage.tsx:51 | the schedule reads as empty with no doctor selected or no entry, and is the doctor's entry otherwise |
| ScheduleConfig.WithTime | src/components/ScheduleConfigPage.tsx:57-60 | adding keeps the list when the time is there; otherwise it adds exactly that time, sorted, and a sorted duplicate-free day stays so |
| ScheduleConfig.PushFresh | src/components/ScheduleConfigPage.tsx:58-59 | push then sort holds the old times plus the new one, without duplicates when there were none |
| ScheduleConfig.WithoutTime | src/components/ScheduleConfigPage.tsx:71 | removing drops every occurrence of the time, keeps the rest, and keeps a day well formed |
| ScheduleConfig.FilterWellFormed | src/components/ScheduleConfigPage.tsx:71 | filtering a sorted duplicate-free day keeps it so |
| ScheduleConfig.AddThenRemove | src/components/ScheduleConfigPage.tsx:53-74 | removing a freshly added time restores the day |
| ScheduleConfig.RemoveThenAdd | src/components/ScheduleConfigPage.tsx:53-74 | adding back a removed time restores the day |
| ScheduleConfig.AddTwice | src/components/ScheduleConfigPage.tsx:57 | adding the same time twice is adding it once |
| ScheduleConfig.WithTimeAdded | src/components/ScheduleConfigPage.tsx:53-63 | only the doctor's chosen day changes, by the added time; a present time leaves the table unchanged; well-formedness is kept |
| ScheduleConfig.WithTimeRemoved | src/components/ScheduleConfigPage.tsx:68-74 | only the doctor's chosen day changes, by losing the time; well-formedness is kept |
| ScheduleConfig.TableAddThenRemove | src/components/ScheduleConfigPage.tsx:53-74 | adding then removing a time restores the whole table |
| ScheduleConfig.AddedShape | src/components/ScheduleConfigPage.tsx:56-61 | an add rewrites just the one day's entry in the doctor's week |
| ScheduleConfig.RemovedShape | src/components/ScheduleConfigPage.tsx:70-72 | a remove rewrites just the one day's entry in the doctor's week |
| ScheduleConfig.InitialWellFormed | src/components/ScheduleConfigPage.tsx:21-25 | the seed schedules are sorted and duplicate-free on every day |
| ScheduleConfig.ConfigView.constructor | src/components/ScheduleConfigPage.tsx:32-38 | the editor starts on the first centre with its first doctor, the seed schedules and no typed times |
| ScheduleConfig.ConfigView.SelectCenter | src/components/ScheduleConfigPage.tsx:42-49 | changing the centre selects its first doctor, or none |
| ScheduleConfig.ConfigView.SelectDoctor | src/components/ScheduleConfigPage.tsx:96 | choosing a doctor changes only the selected doctor |
| ScheduleConfig.ConfigView.EditNewTime | src/components/ScheduleConfigPage.tsx:118 | typing sets that day's pending time only |
| ScheduleConfig.ConfigView.AddTime | src/components/ScheduleConfigPage.tsx:53-66 | with a typed time and a doctor, the time joins the day and the input clears, even for a duplicate; otherwise nothing changes |
| ScheduleConfig.ConfigView.RemoveTime | src/components/ScheduleConfigPage.tsx:68-74 | with a doctor, the time leaves that day; otherwise nothing changes |
| AdminLists.MapWhere | components/ManageAssociates.tsx:13-15 | a `map` that rewrites only the records that pass the test, keeping the length |
| AdminLists.ToggleWhere | components/ManageAssociates.tsx:12-16 | only records with that id are flipped, and the length is kept |
| AdminLists.ToggleTwice | components/ManageAssociates.tsx:12-16 | toggling the same id twice restores the list |
| AdminLists.DeleteWhere | components/ManageAssociates.tsx:20 | deleting never lengthens the list |
| AdminLists.DeleteMembers | components/ManageAssociates.tsx:18-22 | a delete removes every record with the id and keeps exactly the others; with none to remove it is the identity |
| AdminLists.DeleteAppend | components/ManageAssociates.tsx:20 | deleting from a concatenation deletes from each part, so the survivors keep their order |
| AdminLists.ReplaceWhere | components/ManageAssociates.tsx:37 | only records with the saved id are replaced, and the length is kept |
| AdminLists.SaveEditReplaces | components/ManageAssociates.tsx:37 | a saved edit lands in the list in place of the record it edits |
| AdminLists.CrudPage.constructor | components/ManageAssociates.tsx:8-10 | the page starts on the list with the seed records and nothing being edited |
| AdminLists.CrudPage.ToggleStatus | components/ManageAssociates.tsx:12-16 | the list becomes its toggle, and the view is kept |
| AdminLists.CrudPage.Delete | components/ManageAssociates.tsx:18-22 | a confirmed delete removes the id's records; a declined one changes nothing |
| AdminLists.CrudPage.Edit | components/ManageAssociates.tsx:24-27 | editing opens the form with that record |
| AdminLists.CrudPage.CreateNew | components/ManageAssociates.tsx:29-32 | creating opens the form with no record |
| AdminLists.CrudPage.Save | components/ManageAssociates.tsx:34-45 | while editing, the records with the saved key become the page's merge of the saved data; while creating, the page's new record for the data and the clock is appended; the list view returns |
| AdminLists.CrudPage.Cancel | components/ManageAssociates.tsx:57 | cancel returns to the list without touching the records |
| AdminLists.FlipsChangeOnlyStatus | components/ManageCoupons.tsx:12-16 | each page's toggle flips the status and leaves every other field |
| AdminLists.ToggleTwiceEveryList | components/ManageBenefits.tsx:12-16 | on all six pages, toggling the same id twice restores the list |
| AdminLists.CenterSlug | components/ManageMedicalCenters.tsx:40 | the new centre id is lower case, without whitespace, and no longer than the name |
| AdminLists.DashRunsJoin | components/ManageMedicalCenters.tsx:40 | two words separated by a run of whitespace become the words joined by a single dash |
| AdminLists.DashRunsGap | components/ManageMedicalCenters.tsx:40 | a whole run of whitespace becomes one dash |
| AdminLists.MergeUser | components/ManageScheduleUsers.tsx:39 | a saved user keeps the old password when the submitted one is empty |
| AdminLists.SaveUserKeepsPassword | components/ManageScheduleUsers.tsx:39 | saving an edit with an empty password keeps the stored password and takes every other field from the form |
| AdminLists.AssociatesPage | components/ManageAssociates.tsx:7-45 | the associates page keys by id, flips visibility, creates with `Date.now()` as id and overwrites on edit |
| AdminLists.CentersPage | components/ManageMedicalCenters.tsx:7-45 | the centres page keys by the string id, flips visibility, creates under the slug of the name and overwrites on edit |
| AdminLists.CouponsPage | components/ManageCoupons.tsx:7-45 | the coupons page keys by id, flips visibility, creates with `Date.now()` as id and overwrites on edit |
| AdminLists.SpecialistsPage | src/components/ManageSpecialists.tsx:7-47 | the specialists page keys by id, flips visibility, creates with `Date.now()` as id and overwrites on edit |
| AdminLists.BenefitsPage | components/ManageBenefits.tsx:7-45 | the benefits page keys by id, flips visibility, creates with `Date.now()` as id and overwrites on edit |
| AdminLists.UsersPage | components/ManageScheduleUsers.tsx:7-47 | the users page keys by id, flips visibility, creates with `Date.now()` as id and merges the password on edit |
| AdminLists.SaveNewCenter | components/ManageMedicalCenters.tsx:38-44 | a created centre is appended with the slug of its name as id, without a uniqueness check |
| AdminLists.SaveNewAssociate | components/ManageAssociates.tsx:38-44 | a created associate is the form data with the clock as id, appended at the end |
| AdminLists.SaveEditedAssociate | components/ManageAssociates.tsx:35-37 | an edit overwrites exactly the records with the saved id and keeps every other record in place |
| AdminLists.SaveEditedUser | components/ManageScheduleUsers.tsx:36-47 | a saved user edit replaces the record, with the password merged |
| Referrers.Offered | src/components/ManageReferrers.tsx:61-75 | approve and reject are offered exactly for pending referrers, the activity switch exactly for approved ones |
| Referrers.FlipActivity | src/components/ManageReferrers.tsx:16 | the activity switch always changes the activity |
| Referrers.ApplyOne | src/components/ManageReferrers.tsx:10-18 | approve and reject set the decision, the switch flips the activity; id and code are kept |
| Referrers.Apply | src/components/ManageReferrers.tsx:10-18 | only the referrers with that id change, by the button's effect, and the length is kept |
| Referrers.ActionsTouchOneField | src/components/ManageReferrers.tsx:10-18 | a decision leaves the activity alone, the switch leaves the decision alone, and contact fields are kept |
| Referrers.DecisionsAreFinal | src/components/ManageReferrers.tsx:61-75 | through the buttons on offer, an approved or rejected referrer keeps its decision |
| Referrers.SwitchTwice | src/components/ManageReferrers.tsx:14-18 | switching the same referrer twice restores the list |
| Referrers.ReferrersPage.constructor | src/components/ManageReferrers.tsx:7 | the page starts from its copy of the referrers |
| Referrers.ReferrersPage.Click | src/components/ManageReferrers.tsx:61-75 | a click on an offered button applies it to the row's id |
| Referrers.ReferralCode | components/ReferralPage.tsx:25 | the code starts with the upper-cased first word of the name, is all upper case, and is as long as the word plus the random part |
| Referrers.NewReferrer | components/ReferralPage.tsx:22-27 | a new referrer is pending and active, with the form's contact fields and the generated code |
| Referrers.ReferrerStore.constructor | components/ReferralPage.tsx:29 | the shared referrer list starts as given |
| Referrers.SignUpPage.constructor | components/ReferralPage.tsx:7-12 | the sign-up form starts empty and unsubmitted |
| Referrers.SignUpPage.Edit | components/ReferralPage.tsx:14-16 | the input's name selects the one form field that changes |
| Referrers.SignUpPage.Submit | components/ReferralPage.tsx:18-32 | when the handler runs, submitting appends exactly one new referrer to the shared list and marks the form submitted (the browser's `required` check in front is not modelled) |
| Referrers.ReferralLink | src/components/ReferralDashboardPage.tsx:52 | the link is the fixed prefix followed by the code |
| Referrers.PendingNotAdmitted | src/components/ReferralDashboardPage.tsx:12 | a pending referrer is never let in |
| Referrers.GeneratedCodeAnyCase | src/components/ReferralDashboardPage.tsx:12 | an approved, active referrer with a generated code gets in typing it in any case |
| Referrers.Portal.constructor | src/components/ReferralDashboardPage.tsx:7-8 | the portal starts with an empty code, no error and nobody logged in |
| Referrers.Portal.EditCode | src/components/ReferralDashboardPage.tsx:37 | typing sets the code and clears the error |
| Referrers.Portal.Login | src/components/ReferralDashboardPage.tsx:10-18 | when the handler runs, somebody logs in exactly when an approved, active referrer has the upper-cased code, and it is the first such referrer in the list; otherwise the error is shown (the browser's `required` check in front is not modelled) |
| Referrers.Portal.Logout | src/components/ReferralDashboardPage.tsx:127 | logging out leaves nobody logged in, and the login view remounts empty |
| Referrers.Portal.Link | src/components/ReferralDashboardPage.tsx:52 | the dashboard shows the logged-in referrer's link |
| Referrers.SignUpThenLogin | components/ReferralPage.tsx:18-32 | signing up and logging in at once with the new code is refused |
| Forms.IdOf | src/components/UserForm.tsx:54 | a saved record takes the existing id, or 0 when new |
| Forms.UserDraftOf | src/components/UserForm.tsx:13-32 | the form starts from the stored user with an empty password, or from the defaults |
| Forms.UserOf | src/components/UserForm.tsx:53-57 | the saved user carries the form's fields and the given id |
| Forms.SpecialistChoice | src/components/UserForm.tsx:36 | an empty choice means no specialist |
| Forms.SpecialistOptionRoundTrip | src/components/UserForm.tsx:117 | choosing the option of a specialist id reads back that id |
| Forms.CheckUser | src/components/UserForm.tsx:39-58 | the form saves exactly when the passwords agree and a new user has one; a mismatch is reported first, a missing password second |
| Forms.MismatchCheckedFirst | src/components/UserForm.tsx:43-51 | in the submit handler, a new user with an empty password but a typed confirmation gets the mismatch error, because the handler tests the mismatch before the missing password |
| Forms.UserEditRoundTrip | src/components/UserForm.tsx:13-57 | editing a stored user and saving unchanged gives it back once its password is merged |
| Forms.UserForm.constructor | src/components/UserForm.tsx:13-32 | the form starts from the draft of its initial user with no confirmation and no error |
| Forms.UserForm.Edit | src/components/UserForm.tsx:34-37 | typing changes the named field only |
| Forms.UserForm.EditRole | src/components/UserForm.tsx:34-37 | the role select changes the role only |
| Forms.UserForm.EditSpecialist | src/components/UserForm.tsx:36 | the specialist select stores the parsed choice |
| Forms.UserForm.EditConfirm | src/components/UserForm.tsx:132 | typing the confirmation changes it only |
| Forms.UserForm.Submit | src/components/UserForm.tsx:39-58 | submit saves exactly what the check accepts and clears the error, or shows the check's message |
| Forms.AssociateDraftOf | src/components/AssociateForm.tsx:11-22 | the form starts from the stored associate, or from empty fields and visible |
| Forms.InitialLogoType | src/components/AssociateForm.tsx:24-26 | the logo mode starts as text exactly when the stored logo is `TEXT_ONLY` |
| Forms.AssociateOf | src/components/AssociateForm.tsx:33-41 | the saved associate has the form's fields, with `TEXT_ONLY` as logo in text mode |
| Forms.AssociateEditRoundTrip | src/components/AssociateForm.tsx:11-41 | editing a stored associate and saving unchanged gives it back |
| Forms.AssociateForm.constructor | src/components/AssociateForm.tsx:11-26 | the form starts from the draft and the initial logo mode |
| Forms.AssociateForm.Edit | src/components/AssociateForm.tsx:28-31 | typing changes the named field only |
| Forms.AssociateForm.SetLogoType | src/components/AssociateForm.tsx:64-65 | the mode buttons change the logo mode only |
| Forms.AssociateForm.Submit | src/components/AssociateForm.tsx:33-41 | submit builds the associate from the form, the mode and the kept id |
| Forms.SpecialistDraftOf | src/components/SpecialistForm.tsx:12-28 | the form starts from the stored specialist, or from the defaults |
| Forms.KeptAvailability | src/components/SpecialistForm.tsx:42 | the stored availability is kept, and a new specialist has none |
| Forms.SpecialistOf | src/components/SpecialistForm.tsx:38-46 | the saved specialist has the form's fields, the kept id and the kept availability |
| Forms.SpecialistEditRoundTrip | src/components/SpecialistForm.tsx:12-46 | editing a stored specialist and saving unchanged gives it back |
| Forms.NewSpecialistNotBookable | src/components/SpecialistForm.tsx:42 | a new specialist has no bookable date in the wizard |
| Forms.SpecialistForm.constructor | src/components/SpecialistForm.tsx:12-28 | the form starts from the draft of its initial specialist |
| Forms.SpecialistForm.Edit | src/components/SpecialistForm.tsx:30-36 | typing changes the named field only |
| Forms.SpecialistForm.EditFee | src/components/SpecialistForm.tsx:34 | the fee input stores a number |
| Forms.SpecialistForm.Submit | src/components/SpecialistForm.tsx:38-46 | submit builds the specialist from the form, keeping the id and the availability |
| Listings.FeaturedOffers | components/FeaturedOffers.tsx:75 | exactly the offers that are featured and visible |
| Listings.VisibleOffers | components/MoreOffersPage.tsx:28 | exactly the visible offers, whatever their placement |
| Listings.FeaturedOffersWithinVisible | components/MoreOffersPage.tsx:28 | the featured offers are the featured part of the visible ones |
| Listings.OfferListsKeepOrder | components/FeaturedOffers.tsx:75 | both offer lists keep the data's order |
| Listings.OfferCards | components/FeaturedOffers.tsx:7-16 | a card shows exactly the featured offers with a known icon |
| Listings.FeaturedCoupons | components/FeaturedOffers.tsx:76 | exactly the coupons that are featured and visible |
| Listings.VisibleCoupons | src/components/MoreCouponsPage.tsx:38 | exactly the visible coupons, whatever their placement |
| Listings.FeaturedCouponsWithinVisible | src/components/MoreCouponsPage.tsx:38 | the featured coupons are the featured part of the visible ones |
| Listings.CouponListsKeepOrder | components/FeaturedOffers.tsx:76 | both coupon lists keep the data's order |
| Listings.CouponLink | components/FeaturedOffers.tsx:49 | the link starts with the detail route, renders the detail page, and its id reads back as the coupon's id |
| Listings.VisibleAssociates | src/components/Associates.tsx:6 | exactly the visible associates |
| Listings.AssociateHref | src/components/Associates.tsx:44 | the link is the website, or `#` when there is none |
| Listings.SavedAssociateRendering | src/components/Associates.tsx:49-53 | a text-mode associate shows its name; an image-mode one does so exactly when its logo is empty or `TEXT_ONLY` |
| Listings.ReportsOf | components/ResultsPage.tsx:113-116 | exactly the reports of the chosen kind, newest first, as a permutation |
| Listings.ReportsSplitByKind | components/ResultsPage.tsx:113-116 | every report is in exactly one of the two listings |
| Listings.ResultsPortal.constructor | components/ResultsPage.tsx:9 | the portal starts on the sign-in view |
| Listings.ResultsPortal.Login | components/ResultsPage.tsx:11-15 | when the handler runs, signing in always reaches the selection, with no credential check (the browser's `required` check in front is not modelled) |
| Listings.ResultsPortal.Choose | components/ResultsPage.tsx:85-95 | a card opens that kind's listing |
| Listings.ResultsPortal.Back | components/ResultsPage.tsx:124 | back returns to the selection |
| Listings.ResultsPortal.Shown | components/ResultsPage.tsx:156-168 | a listing view shows its kind's reports, and other views show none |
| Listings.Cities | constants.ts:99 | the cities of the sector table, in its order |
| Listings.InitialCity | src/components/SchedulingPage.tsx:11 | Guayaquil when listed, else the first city, else `''` |
| Listings.SeedInitialCity | constants.ts:93-97 | with the seed table the form starts on Guayaquil and its sectors |
| Listings.SchedulingForm.constructor | src/components/SchedulingPage.tsx:11-16 | the form starts on the initial city, no sector and `Medicina General` |
| Listings.SchedulingForm.SelectCity | src/components/SchedulingPage.tsx:18-21 | changing the city resets the sector and reloads that city's sectors |
| Listings.SchedulingForm.SelectSector | src/components/SchedulingPage.tsx:78-80 | a sector of the current city can be chosen while the select is enabled |
| Listings.SchedulingForm.SelectSpecialty | src/components/SchedulingPage.tsx:93 | the specialty select changes only the specialty |
| Listings.SchedulingForm.Search | src/components/SchedulingPage.tsx:23-30 | the search carries the city, the sector and the specialty, and the sector is `''` or one of the city's |

## Left out

- Rendering, CSS, icons, the touch-swipe handlers, the clipboard, DOM scrolling and the `console.log` of the submitted referrer (`ReferralPage.tsx:30`, in `Referrers.SignUpPage.Submit`) are not modelled. The locale formats (`toLocaleDateString`, `toLocaleString`, `toFixed`) are not modelled either.
- Wall-clock time is a parameter. The dashboard's `toISOString` keys and `new Date(...)` comparisons are taken as the given bucket keys and a day-level `LocalDate` window. Time zones, invalid dates (`NaN`) and the UTC/local mismatch between the dashboard and the wizard are not modelled. The caller supplies all four fields of `MedicalAgenda.Clock`: calendar arithmetic (month and year rollover) is not modelled, so nothing ties `tomorrowKey` or `weekEnd` (today + 7) to `today`, and the week bucket is the seven-day window only for a clock that the caller built that way.
- ISO timestamps (`expiryDate`, `redeemedAt`, report dates, the dates in `sortedDates`) are compared as strings. The source parses them with `new Date` and compares numbers. The two orders agree for well-formed timestamps in one format; other strings are not modelled.
- `Lists.SortBy` orders by string key with a stable insertion sort. JavaScript sorts by UTF-16 code units, and the model compares characters. `localeCompare` on times is taken as that same order on zero-padded times. The relative order of equal keys is not stated.
- `Strings.ToUpper` and `Strings.ToLower` map ASCII letters only. JavaScript's case mapping covers all of Unicode.
- `Math.random().toString(36).substring(...)` is a string parameter of `Coupons.GeneratedCode` and `Referrers.ReferralCode`. Fewer random characters than the substring asks for are possible in the source and are allowed in the model. Neither generator checks for collisions, and the model does not either.
- `Date.now()` is the `now` parameter of `AdminLists.CrudPage.Save`. Nothing in the source or the model makes two such ids distinct from each other or from the stored ids.
- The 500 ms `setTimeout` of the verifier and of the search is modelled as two steps: `Coupons.Verifier.Submit` hands the code to `Coupons.Verifier.Resolve`, and `SpecialistResults.Wizard.LoadResults` runs the search directly.
- `Coupons.Verifier.Resolve` stores the found instance as a value. In the source it is the same object as the shared array's element, an alias the redeem handler does not use.
- `URLSearchParams` parsing and encoding are not modelled. `Coupons.DetailView.Load` takes the `id` parameter as an `Option<string>`. `Listings.SchedulingForm.Search` returns the three search parameters rather than the encoded hash.
- `Number(...)` is modelled by `Strings.ParseInt` on the specialist select, whose option values are decimal ids. The specialist fee's `Number` parsing is a `real` parameter of `Forms.SpecialistForm.EditFee`; floating point is not modelled.
- A specialist id of 0 in the user form's select displays as the empty option. The model stores the choice and does not model what is displayed.
- The password check in the agenda login is absent in the source, and so it is in `MedicalAgenda.LoginView.Submit`. The results portal's login ignores its credentials, and `Listings.ResultsPortal.Login` does too.
- The login view of the weekly slot editor (`ScheduleConfigPage.tsx`) is not modelled; it only flips a logged-in flag.
- `ScheduleConfig.ConfigView.RemoveTime` requires the day to be in the selected doctor's week. The source's handler would throw on a missing day, and its remove buttons are only rendered for listed times.
- The admin pages work on local copies of the seed arrays, so their changes never reach the shared lists. The model keeps each page's own list. For the same reason, a referrer approved on the admin page is never approved in the list the portal reads.
- The offer price, shown only when defined (`MoreOffersPage.tsx:14`), is markup and is not modelled.
- `CouponForm.tsx`, `BenefitForm.tsx` and `MedicalCenterForm.tsx` copy their fields into a record, parse a date or a float, and are not part of this model.
- UI gating is stated through `requires` only where the source disables or hides a control: the sector select, the wizard's step buttons and time options, the referrer row buttons via `Referrers.Offered`, the agenda's answer buttons via `MedicalAgenda.ActionTargets` in `MedicalAgenda.Dashboard.Answer`, the agenda's doctor select (rendered only for an administrator, `MedicalAgendaPage.tsx:347`) in `MedicalAgenda.Dashboard.SelectDoctor`, and the verifier's buttons (verify disabled while loading, `CouponVerifierPage.tsx:152`; redeem shown only for a valid code and disabled once used, `CouponVerifierPage.tsx:100-104`) in `Coupons.Verifier.Submit` and `Coupons.Verifier.Redeem`. `MedicalAgenda.Dashboard.UpdateStatus` itself, like the handler, takes any status for any id.
- Forms.CheckUser, Forms.MismatchCheckedFirst, Forms.UserForm.Submit, Forms.AssociateForm.Submit and Forms.SpecialistForm.Submit model the forms' submit handlers without the browser's own validation in front of them. That validation covers the `required` inputs (UserForm.tsx:69-98, 127, 132; AssociateForm.tsx:53; SpecialistForm.tsx:56-97) and the `email`, `url`, `tel` and `number` input types. With it, a new user's empty password is refused by the browser before the handler runs, so the case `Forms.MismatchCheckedFirst` describes never shows its error to the user. The model accepts every submit the handler would see.
- `SpecialistResults.Wizard.ConfirmAppointment` states the browser's `required` check by its effect: an incomplete form stays on the patient view. The source's handler itself sets the confirmation unconditionally. The `type="email"` check on the optional email input (`SpecialistResultsPage.tsx:233`) is not modelled: a non-empty malformed email is blocked by the browser but confirms in the model.
- MedicalAgenda.LoginView.Submit models the handler without the browser's validation in front of it: the `required` username and password inputs (`MedicalAgendaPage.tsx:45`, `63`) refuse an empty value before the handler runs, so "whatever the password" holds for non-empty passwords only on the page.
- Listings.ResultsPortal.Login models the handler without the browser's validation in front of it: the `required` inputs and the `type="email"` input (`ResultsPage.tsx:38-40`, `57`) refuse empty or malformed credentials before the handler runs.
- Referrers.SignUpPage.Submit models the handler without the browser's validation in front of it: the `required` name, email and phone inputs and their `email`/`tel` types (`ReferralPage.tsx:104-106`) refuse empty or malformed fields, which the model still appends as a referrer.
- Referrers.Portal.Login models the handler without the browser's validation in front of it: the `required` code input (`ReferralDashboardPage.tsx:37`) refuses an empty code before the handler runs.
- The availability object of a specialist is a sequence of date entries (`Types.DaySlots`). A JavaScript object cannot repeat a key; the sequence can, and `Types.SlotsOn` then reads the first entry. No contract assumes distinct keys.
