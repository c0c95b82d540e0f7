# Navi driver app: the state logic behind the screens

This project models, in Dafny, the parts of the Navi driver web app
(a React prototype) that do more than lay out fixture data:

- **Notifications** (`notifications.dfy`): the notification records, the
  four filter tabs (All, Unread, Tips, Alerts) with their badge counts, the
  unread count, and the three list updates: mark one id read, mark all
  read, delete an id. The screen's state is the class `NotificationsScreen`;
  each handler replaces its list with a pure function of the old list.
- **Availability calendar** (`calendar.dfy`): the 24 hour slots
  `"00:00"`…`"23:00"`; the date picker's `disabled` test; the table of
  saved start/end pairs per day, with its insertion order; save and lookup;
  the "Upcoming Schedule" list; the "N hours" badge; and the
  "No scheduled hours yet" message. The screen's state is `CalendarScreen`.
- **Sign-up wizard** (`signup.dfy`): the step counter 1..5 moved by Next
  and Back, the terms gate on the last Next, the progress dots, and the
  form record whose fields the inputs overwrite one at a time (the
  checkboxes store `!!checked`). The component is `DriverSignupWizard`.
- **Earnings** (`earnings.dfy`): the daily, weekly and monthly fixture
  tables, the view selector with its fallback to daily, the chart's axis
  key, and the total-earnings and total-trips sums.
- **Dashboard** (`dashboard.dfy`): the active tab, the callbacks that
  change it, and when the bottom navigation is shown.
- **Top-level page** (`app.dfy`): the current page, the one-way
  authentication flag, the rendered screen with its fallback to the entry
  page, and how the sign-up wizard's completion, exit and sign-in link
  reach it.

`common.dfy` holds an `Option` type and `Where`, the model of
`Array.prototype.filter`. `Where` is proved to return the matching elements
in their original order, each as often as it occurs.

Modelling choices:

- Instants are integers counting milliseconds on the local clock. "Now" is a
  parameter. A date key (`format(date, 'yyyy-MM-dd')`) is the local day
  number `instant / MsPerDay`.
- The schedule table keeps its keys in insertion order. That is the order
  `Object.entries` yields keys of the form `yyyy-MM-dd`. The upcoming list
  follows that order and is not sorted by date.
- `parseInt` reads the leading decimal digits; `None` stands for `NaN`.
- `saveSchedule` writes the draft pair under the selected day
  unconditionally: any day, any pair, even a start at or after the end. The
  hours badge can therefore be zero or negative.

## Model

| member | source | states |
|---|---|---|
| Notifications.Filtered | src/components/driver/DriverNotifications.tsx:87-103 | All returns the list unchanged; every other tab returns, in list order, exactly the entries that are unread, tips or alerts, each as often as it occurs |
| Notifications.TabCountIsFilteredLength | src/components/driver/DriverNotifications.tsx:187-191 | each tab's badge equals the length of the list shown under it; All counts the whole list; unread count is at most the list length |
| Notifications.UnreadCountZero | src/components/driver/DriverNotifications.tsx:151-180 | the unread count is 0 iff every entry is read; "Mark All Read" is offered iff some entry is unread |
| Notifications.UnreadCount | src/components/driver/DriverNotifications.tsx:151 | the unread count never exceeds the list length |
| Notifications.TabCount | src/components/driver/DriverNotifications.tsx:187-191 | no badge exceeds the list length |
| Notifications.MarkRead | src/components/driver/DriverNotifications.tsx:105-109 | same length and order; entries with the id become read with every other field kept; all other entries unchanged |
| Notifications.MarkAllRead | src/components/driver/DriverNotifications.tsx:111-115 | same length and order; each entry is the old one with `read` set and every other field kept |
| Notifications.Delete | src/components/driver/DriverNotifications.tsx:117-119 | an in-order subsequence holding every entry with another id as often as before, and none with the deleted id |
| Notifications.MarkReadIdempotent | src/components/driver/DriverNotifications.tsx:105-109 | marking an id twice equals marking it once |
| Notifications.MarkAllReadIdempotent | src/components/driver/DriverNotifications.tsx:111-115 | marking all twice equals marking all once |
| Notifications.MarkAllReadClearsUnread | src/components/driver/DriverNotifications.tsx:111-115 | afterwards the unread count is 0 and the button is no longer offered |
| Notifications.MarkReadLowersUnread | src/components/driver/DriverNotifications.tsx:105-109 | marking an id never raises the unread count and leaves no unread entry with that id |
| Notifications.DeleteRemovesExactly | src/components/driver/DriverNotifications.tsx:117-119 | no entry keeps the deleted id, every entry with another id survives, the list does not grow |
| Notifications.InitialTabCounts | src/components/driver/DriverNotifications.tsx:32-83 | the initial list has badges 6 (all), 3 (unread), 2 (tips), 2 (alerts) |
| Notifications.NotificationsScreen.constructor | src/components/driver/DriverNotifications.tsx:32-85 | the screen starts with the six fixture notifications on the All tab |
| Notifications.NotificationsScreen.SetFilter | src/components/driver/DriverNotifications.tsx:195 | a tab click sets the filter and keeps the list |
| Notifications.NotificationsScreen.MarkAsRead | src/components/driver/DriverNotifications.tsx:105-109 | the list becomes `MarkRead` of the old list; the filter is kept; the unread count does not rise |
| Notifications.NotificationsScreen.MarkAllAsRead | src/components/driver/DriverNotifications.tsx:111-115 | the list becomes `MarkAllRead` of the old list; nothing is unread afterwards |
| Notifications.NotificationsScreen.DeleteNotification | src/components/driver/DriverNotifications.tsx:117-119 | the list becomes `Delete` of the old list; no entry with the id remains |
| Calendar.TimeSlotsSpec | src/components/driver/DriverCalendar.tsx:19-22 | 24 slots; slot i is two digits and ":00", and its hour reads back as i |
| Calendar.SlotRoundTrip | src/components/driver/DriverCalendar.tsx:19-22 | the hour the badge parses out of slot i is i |
| Calendar.DecimalRoundTrip | src/components/driver/DriverCalendar.tsx:20 | the digits of `i.toString()` read back as i |
| Calendar.ZeroPadValue | src/components/driver/DriverCalendar.tsx:20 | `padStart(2, '0')` keeps a digit string's value |
| Calendar.PadStart | src/components/driver/DriverCalendar.tsx:20 | the result has the target width (or the original length), ends with the original text and is fill before it |
| Calendar.BeforeColon | src/components/driver/DriverCalendar.tsx:162 | a colon-free prefix of the string, followed by a colon unless it is the whole string |
| Calendar.LeadingDigits | src/components/driver/DriverCalendar.tsx:162 | the longest all-digit prefix |
| Calendar.ParseInt | src/components/driver/DriverCalendar.tsx:162 | a number exactly when the text starts with a digit, and then never negative |
| Calendar.HoursBadgeOfSlots | src/components/driver/DriverCalendar.tsx:162 | for slot-picked windows the badge is end hour minus start hour, zero or negative when end is not after start |
| Calendar.SelectableDays | src/components/driver/DriverCalendar.tsx:68 | with the `disabled` test, the offered midnights are tomorrow (today at exactly midnight) through today + 90 |
| Calendar.Save | src/components/driver/DriverCalendar.tsx:24-30 | afterwards the day maps to the saved pair, every other day's lookup is unchanged, the key order gains the day only if new, and the table stays well formed |
| Calendar.SaveTwice | src/components/driver/DriverCalendar.tsx:24-30 | saving the same day twice keeps only the last pair |
| Calendar.HasIffLookup | src/components/driver/DriverCalendar.tsx:32-40 | `hasSchedule` holds iff `getSchedule` finds a pair |
| Calendar.DaysFrom | src/components/driver/DriverCalendar.tsx:148-149 | exactly the saved days on or after today, in the table's order |
| Calendar.Upcoming | src/components/driver/DriverCalendar.tsx:148-151 | at most five entries, the first ones of the filtered order, each on or after today with its saved pair |
| Calendar.UpcomingComplete | src/components/driver/DriverCalendar.tsx:148-151 | a list shorter than five includes every saved day on or after today |
| Calendar.NoSchedulesMessage | src/components/driver/DriverCalendar.tsx:166-168 | the message shows iff the table is empty; then the upcoming list is empty too |
| Calendar.OnlyPastDaySaved | src/components/driver/DriverCalendar.tsx:148-168 | with only a past day saved, the upcoming list is empty and the message is not shown |
| Calendar.CalendarScreen.constructor | src/components/driver/DriverCalendar.tsx:15-17 | starts on now, with no schedules and the draft 09:00 to 17:00 |
| Calendar.CalendarScreen.SelectDate | src/components/driver/DriverCalendar.tsx:67 | a picked date replaces the selection; a cleared one is ignored |
| Calendar.CalendarScreen.SetDraftStart | src/components/driver/DriverCalendar.tsx:100 | only the draft's start changes |
| Calendar.CalendarScreen.SetDraftEnd | src/components/driver/DriverCalendar.tsx:112 | only the draft's end changes |
| Calendar.CalendarScreen.SaveSchedule | src/components/driver/DriverCalendar.tsx:24-30 | the selected day now has the draft pair, whatever its hours; every other day is unchanged |
| Signup.Coerce | src/components/driver/DriverSignup.tsx:177 | `!!checked` is true for every state except unchecked |
| Signup.WithText | src/components/driver/DriverSignup.tsx:77 | the named text field takes the value; every other field, flag and the birth date are unchanged |
| Signup.WithFlag | src/components/driver/DriverSignup.tsx:411 | the named flag becomes `!!checked`; every other flag, text field and the birth date are unchanged |
| Signup.WithBirthDate | src/components/driver/DriverSignup.tsx:154 | only the birth date changes |
| Signup.WithTextSameValue | src/components/driver/DriverSignup.tsx:77 | writing a field its own value leaves the form equal |
| Signup.NextStepSpec | src/components/driver/DriverSignup.tsx:45-51 | before step 5 Next adds one; at step 5 it stays and completes |
| Signup.BackStepSpec | src/components/driver/DriverSignup.tsx:53-59 | after step 1 Back subtracts one; at step 1 it stays and goes to the entry page |
| Signup.NextThenBack | src/components/driver/DriverSignup.tsx:45-59 | on steps 1 to 4, Next then Back returns to the same step |
| Signup.CompletionGate | src/components/driver/DriverSignup.tsx:464-471 | completion happens iff Next is pressed on step 5 with the terms accepted |
| Signup.RunStaysInRange | src/components/driver/DriverSignup.tsx:43-59 | any sequence of events from a valid step keeps the step within 1..5 |
| Signup.InitialRunStaysInRange | src/components/driver/DriverSignup.tsx:21-59 | from the opening state (step 1, empty form) every sequence of events keeps the step within 1..5 |
| Signup.SignInLinkLeaves | src/components/driver/DriverSignup.tsx:474-485 | the "Sign in here" link asks for the sign-in page from every step and changes neither step nor form; no other event does |
| Signup.FilledDotsAmongCount | src/components/driver/DriverSignup.tsx:434-441 | among n dots, the filled ones number the step, capped at 0 and n |
| Signup.FilledDotsIsStep | src/components/driver/DriverSignup.tsx:434-441 | on every step the filled dots number the step |
| Signup.DriverSignupWizard.constructor | src/components/driver/DriverSignup.tsx:21-41 | starts on step 1 with the empty form |
| Signup.DriverSignupWizard.PressNextButton | src/components/driver/DriverSignup.tsx:464-471 | a disabled press does nothing; otherwise the step advances or registration completes, only from step 5 with terms accepted |
| Signup.DriverSignupWizard.PressBackButton | src/components/driver/DriverSignup.tsx:455-462 | the step goes back, or the entry page is requested from step 1; the step stays in range |
| Signup.DriverSignupWizard.PressSignInLink | src/components/driver/DriverSignup.tsx:478-483 | the link asks for the driver sign-in page and leaves the wizard as it is |
| Signup.DriverSignupWizard.EditTextField | src/components/driver/DriverSignup.tsx:98 | the form becomes `WithText` of the old form; the step is kept |
| Signup.DriverSignupWizard.EditCheckbox | src/components/driver/DriverSignup.tsx:292 | the form becomes `WithFlag` of the old form; the step is kept |
| Signup.DriverSignupWizard.PickDateOfBirth | src/components/driver/DriverSignup.tsx:154 | the form becomes `WithBirthDate` of the old form; the step is kept |
| Earnings.CurrentData | src/components/driver/DriverEarnings.tsx:39-45 | the rows are always one of the three fixture tables |
| Earnings.XAxisKey | src/components/driver/DriverEarnings.tsx:47-53 | the axis key is always `day`, `week` or `month` |
| Earnings.DataAndAxisAgree | src/components/driver/DriverEarnings.tsx:39-53 | weekly gives the weekly rows and `week`, monthly the monthly rows and `month`, any other view the daily rows and `day` |
| Earnings.SumsAdditive | src/components/driver/DriverEarnings.tsx:55-63 | both sums split over concatenation |
| Earnings.SumsNonNegative | src/components/driver/DriverEarnings.tsx:55-63 | both sums are non-negative over non-negative rows |
| Earnings.TotalIsSumOfParts | src/components/driver/DriverEarnings.tsx:139-141 | over balanced rows, total earnings equal net fares plus tips plus other |
| Earnings.FixturesWellFormed | src/components/driver/DriverEarnings.tsx:16-37 | every fixture row is balanced and non-negative |
| Earnings.FixtureTotals | src/components/driver/DriverEarnings.tsx:16-63 | daily 2076 and 83 trips, weekly 6808 and 280, monthly 20600 and 850 |
| Earnings.ViewTotalsConsistent | src/components/driver/DriverEarnings.tsx:55-58 | every view's total is the sum of its three parts, and both totals are non-negative |
| Earnings.EarningsScreen.constructor | src/components/driver/DriverEarnings.tsx:14 | the view starts as daily |
| Earnings.EarningsScreen.SetView | src/components/driver/DriverEarnings.tsx:88 | a toggle sets the view |
| Earnings.EarningsScreen.Totals | src/components/driver/DriverEarnings.tsx:55-63 | the two card figures are the sums over the current view's rows, both non-negative |
| Dashboard.NavTarget | src/components/driver/DriverDashboard.tsx:64-71 | a bottom-nav item always names home, bookings or account |
| Dashboard.Target | src/components/driver/DriverDashboard.tsx:17-45 | a nav click lands where the nav is shown; Back lands on home |
| Dashboard.BottomNavTabs | src/components/driver/DriverDashboard.tsx:51 | the bottom nav shows iff the tab is home, bookings or account |
| Dashboard.BookingsIgnoresArgument | src/components/driver/DriverDashboard.tsx:17-20 | `navigateToBookings` opens bookings whatever its argument |
| Dashboard.NavClickKeepsNav | src/components/driver/DriverDashboard.tsx:64-71 | a bottom-nav click reaches home, bookings or account, where the nav is shown |
| Dashboard.SubScreensOnlyGoBack | src/components/driver/DriverDashboard.tsx:38-45 | a screen without the nav offers only Back, which goes home |
| Dashboard.SubScreensEnteredFromHome | src/components/driver/DriverDashboard.tsx:22-45 | in any run of offered callbacks, every callback that opens calendar, earnings, safety or notifications is fired from home |
| Dashboard.DriverDashboard.constructor | src/components/driver/DriverDashboard.tsx:15 | starts on home, with the bottom nav shown |
| Dashboard.DriverDashboard.Dispatch | src/components/driver/DriverDashboard.tsx:26-45 | each callback sets its fixed tab: quick actions their view, Back home, nav clicks a nav tab |
| App.HandlersSpec | src/pages/Index.tsx:14-21 | navigation sets the page and keeps the flag; authentication sets the flag and the dashboard page, which then renders |
| App.DashboardGate | src/pages/Index.tsx:23-25 | the dashboard renders iff authenticated and on the dashboard page |
| App.EntryFallback | src/pages/Index.tsx:27-38 | the user pages and an unauthenticated dashboard page render the entry page |
| App.AuthenticationMonotone | src/pages/Index.tsx:12-21 | once set, the authentication flag stays set under any events |
| App.DashboardNeedsAuthentication | src/pages/Index.tsx:14-25 | without authentication, navigation alone never renders the dashboard |
| App.SignupHandsOver | src/pages/Index.tsx:32 | finishing the wizard renders the dashboard; Back on step 1 renders the entry page; Next before step 5 leaves the page state alone; the sign-in link renders the sign-in page from any step |
| App.Apply | src/pages/Index.tsx:14-21 | no handler clears the authentication flag; navigation sets the requested page |
| App.Render | src/pages/Index.tsx:23-38 | the dashboard is rendered only when authenticated |
| App.IndexPage.constructor | src/pages/Index.tsx:11-12 | starts on the entry page, unauthenticated |
| App.IndexPage.HandleNavigation | src/pages/Index.tsx:14-16 | sets the page and keeps the flag |
| App.IndexPage.HandleAuthentication | src/pages/Index.tsx:18-21 | sets the flag and the dashboard page |

## Left out

- Rendering, styling, icons, class strings, `toLocaleString` and the
  Recharts chart: presentation only.
- The real clock and date-fns: "now" is a parameter, dates are millisecond
  instants and local day numbers. Daylight-saving shifts in `addDays` are not
  modelled: 90 days is taken as 90 × 24 hours.
- `new Date("yyyy-MM-dd")` in the upcoming filter reads the key as UTC
  midnight and compares it with local midnight. The model compares day numbers.
- `parseInt`'s handling of leading whitespace, signs and a `0x` prefix is not
  modelled. The strings it reads come from the slot list, which has none of
  them.
- Calendar.CalendarScreen.SelectDate: the picker itself refuses disabled days
  before calling `onSelect`. That refusal belongs to the calendar library and
  is not part of this method. `Calendar.SelectableDays` states the range it
  offers.
- The date-of-birth picker's `disabled` range (after now or before 1900) in
  `DriverSignup.tsx`: a library-side limit on choices, not wizard state.
- The step-3 availability grid of the sign-up wizard: its buttons and
  checkboxes are not wired to any state.
- Step 4 document upload, `DriverSignin` (a timer-simulated call),
  `DriverSafety`, `DriverAccount`, `DriverHome`, `DriverBookings`,
  `OrderDetails` and `EntryPage`: display and console logging only. Their
  navigation callbacks appear here as events of the dashboard and the top
  level.
- App.Run: every handler is allowed in every state, so the model can leave
  the dashboard. In the app, `Index.tsx:23-24` renders the dashboard with no
  handler, so once it is shown the page never changes. Every property stated
  for `App.Run` also holds for the shorter runs the app allows.
- Notification text fields (`title`, `message`, `time`, `amount`) are carried
  as opaque strings; only `id`, `type` and `read` take part in the logic.
