# Hospital management data layer — a Dafny model

This project models the in-memory data layer of a hospital management web
application and the filter and aggregation logic its pages compute from it.

The five repository services each own a list of records with integer `Id`s:
bills, appointments, patients, departments and staff. Each service looks a
record up by `Id`, creates records with the next `Id` and a forced default
status, updates a record by a shallow merge, deletes by splicing (every service
but billing) and answers entity-specific queries. Billing adds a payment state
machine, invoice numbering and a financial summary; departments add a
bed-occupancy report.

Each service is a Dafny `class` whose `seq` field is the store:
- `create`, `update`, `delete` and `processPayment` are methods that change the
  field;
- the read operations are functions that read it;
- a lookup that throws in the original returns `NotFound(message)`.

The six pages (Billing, Staff, Patients, Departments, Dashboard, Appointments)
become pure functions over a snapshot. The exception is the Dashboard's in-place
sort, which is a method on an `array`.

Modules, one per source file, plus four shared modules:
- `Wrappers`: `Option` and `Result`.
- `Seqs`: `Array.prototype.filter`, `reduce`, `map`, `new Set`, and the
  subsequence relation used to say "order preserved".
- `Keyed`: `find`, `findIndex`, `Math.max(...ids) + 1` and `splice` over `Id`s.
- `Text`: `toLowerCase`, `includes`, `trim`, decimal text and `padStart`.

Timestamps are integers in milliseconds. The current time, the current year and
today's date are parameters.

Behaviours of the program worth knowing, each stated by the model:
- **Per-department occupancy divides without a guard.** `getBedOccupancy`, the
  department cards and the Dashboard overview compute occupied / total × 100
  even when a department has no beds, so `DepartmentApi.RateOf` yields NaN for
  0/0 and Infinity for n/0. Only the overall figure on the Departments and
  Dashboard pages falls back to 0.
- **The patient search matches the phone number case-sensitively**, and the
  names and email ignoring case.
- **Blank queries.** The pages skip the text filter for a query that is blank
  after trimming. The service `search` does not trim; it returns everybody on
  the empty query only because every string contains "".
- **Ids are reused.** A new Id is the largest Id in the current store plus one,
  so after the record with the largest Id is deleted, the next record created
  gets that Id again (`AppointmentApi.IdReusedAfterDelete`). Ids assigned over
  the store's lifetime are therefore not all distinct; Ids present in the store
  at any one time stay unique.

## Model

| member | source | states |
|---|---|---|
| BillingApi.MergeSpec | src/services/api/billingService.js:56 | every patched field takes the patch value, every other field keeps its value, and merging the same patch twice changes nothing more |
| BillingApi.InvoiceNumberEncodesId | src/services/api/billingService.js:42-43 | for a non-negative Id, the invoice number is `INV-{year}-` followed by at least three digits whose value is the Id |
| BillingApi.InvoiceNumbersDistinct | src/services/api/billingService.js:42-43 | two different non-negative Ids give two different invoice numbers in the same year |
| BillingApi.ApplyPayment | src/services/api/billingService.js:67-76 | the new paid amount is the old one plus the payment and only paidAmount and status may change |
| BillingApi.PaymentsAccumulate | src/services/api/billingService.js:60-79 | after any non-empty series of non-negative payments the bill has been paid their total, its status is Paid once that covers the amount, Partial if something was paid, else unchanged, and nothing else changed |
| BillingApi.PaymentExample | src/services/api/billingService.js:70-76 | on a bill of 100 with nothing paid, paying 40 gives Partial with 40 paid and then paying 60 gives Paid with 100 paid |
| BillingApi.SumDueIsDifference | src/services/api/billingService.js:84-86 | the sum of amount minus paidAmount over the bills equals total revenue minus total collected |
| BillingApi.BillingService.constructor | src/services/api/billingService.js:4-6 | the store starts as the given seed |
| BillingApi.BillingService.GetAll | src/services/api/billingService.js:8-11 | returns the stored bills in store order |
| BillingApi.BillingService.GetById | src/services/api/billingService.js:13-20 | succeeds exactly when some bill has that Id, and then returns a stored bill with that Id; otherwise fails with "Bill not found" |
| BillingApi.BillingService.GetByPatientId | src/services/api/billingService.js:22-27 | exactly the bills whose patientId is the decimal text of the argument, each with its multiplicity in the store, as an order-preserving subsequence of the store |
| BillingApi.BillingService.GetOverdueBills | src/services/api/billingService.js:29-36 | exactly the bills past their due date whose status is not Paid, with their multiplicities, order preserved; a Paid bill is never returned |
| BillingApi.BillingService.Create | src/services/api/billingService.js:38-48 | appends one bill whose Id exceeds every existing Id, with that Id's invoice number and status Pending over any supplied values; the old bills are untouched and unique Ids stay unique |
| BillingApi.BillingService.Update | src/services/api/billingService.js:50-58 | on an absent Id fails with "Bill not found" and changes nothing; otherwise replaces only the first bill with that Id by its merge with the patch |
| BillingApi.BillingService.ProcessPayment | src/services/api/billingService.js:60-79 | on an absent Id fails and changes nothing; otherwise only that bill changes, to the result of the payment transition, and Ids stay unique |
| BillingApi.BillingService.GetFinancialSummary | src/services/api/billingService.js:81-98 | outstanding is revenue minus collected; the overdue count and amount are the size of the set `GetOverdueBills` selects and its sum of amount minus paidAmount |
| BillingApi.OverdueWithinOutstanding | src/services/api/billingService.js:81-98 | when no bill is overpaid the overdue amount lies between zero and the total outstanding |
| AppointmentApi.SameDayIff | src/services/api/appointmentService.js:31-34 | two timestamps share a calendar day exactly when the second lies in the 24-hour block of the first |
| AppointmentApi.MergeSpec | src/services/api/appointmentService.js:55 | per-field overwrite-or-keep of the shallow merge, and idempotence |
| AppointmentApi.OnDay | src/services/api/appointmentService.js:29-36 | exactly the appointments on the same calendar day as the given time, with their multiplicities, order preserved |
| AppointmentApi.IdReusedAfterDelete | src/services/api/appointmentService.js:38-67 | with Ids 1 and 2, deleting Id 2 leaves a store whose next Id is 2 again |
| AppointmentApi.AppointmentService.constructor | src/services/api/appointmentService.js:4-6 | the store starts as the given seed |
| AppointmentApi.AppointmentService.GetAll | src/services/api/appointmentService.js:8-11 | returns the stored appointments in order |
| AppointmentApi.AppointmentService.GetById | src/services/api/appointmentService.js:13-20 | succeeds exactly when the Id is present; otherwise "Appointment not found" |
| AppointmentApi.AppointmentService.GetByPatientId | src/services/api/appointmentService.js:22-27 | exactly the appointments whose patientId is the decimal text of the argument, with their multiplicities, order preserved |
| AppointmentApi.AppointmentService.GetByDate | src/services/api/appointmentService.js:29-36 | exactly the stored appointments on the given day, with their multiplicities, order preserved |
| AppointmentApi.AppointmentService.Create | src/services/api/appointmentService.js:38-47 | appends one appointment with an Id above every existing one and status Pending; unique Ids stay unique |
| AppointmentApi.AppointmentService.Update | src/services/api/appointmentService.js:49-57 | fails and changes nothing on an absent Id; otherwise merges the patch into that one appointment only |
| AppointmentApi.AppointmentService.Delete | src/services/api/appointmentService.js:59-67 | fails and changes nothing on an absent Id; otherwise removes exactly that appointment, keeps the rest in order, and with unique Ids a later lookup of the Id fails |
| PatientApi.MergeSpec | src/services/api/patientService.js:39 | per-field overwrite-or-keep of the shallow merge, and idempotence |
| PatientApi.StatusOnlyUpdate | src/services/api/patientService.js:39 | updating only the status of an Active patient with phone 555-0100 yields an Inactive patient with the same phone and all else unchanged |
| PatientApi.SearchPatients | src/services/api/patientService.js:56-61 | exactly the patients whose first name, last name or email contains the query ignoring case, or whose phone contains it exactly, with their multiplicities; order preserved |
| PatientApi.SearchEmptyQuery | src/services/api/patientService.js:56-61 | the empty query returns every patient |
| PatientApi.PatientService.constructor | src/services/api/patientService.js:4-6 | the store starts as the given seed |
| PatientApi.PatientService.GetAll | src/services/api/patientService.js:8-11 | returns the stored patients in order |
| PatientApi.PatientService.GetById | src/services/api/patientService.js:13-20 | succeeds exactly when the Id is present; otherwise "Patient not found" |
| PatientApi.PatientService.Search | src/services/api/patientService.js:53-62 | the patients matching the search predicate, with their multiplicities, an order-preserving subsequence of the store |
| PatientApi.PatientService.Create | src/services/api/patientService.js:22-31 | appends one patient with an Id above every existing one and status Active; unique Ids stay unique |
| PatientApi.PatientService.Update | src/services/api/patientService.js:33-41 | fails and changes nothing on an absent Id; otherwise merges the patch into that one patient only |
| PatientApi.PatientService.Delete | src/services/api/patientService.js:43-51 | fails and changes nothing on an absent Id; otherwise removes exactly that patient and keeps the rest in order |
| DepartmentApi.MergeSpec | src/services/api/departmentService.js:39 | per-field overwrite-or-keep of the shallow merge, and idempotence |
| DepartmentApi.RateOf | src/services/api/departmentService.js:59 | a percentage exactly when there are beds, with rate × beds = 100 × occupied; NaN exactly for 0/0 and Infinity for occupied beds over none |
| DepartmentApi.RateInRange | src/services/api/departmentService.js:59 | with beds and no more occupied than beds the rate lies in [0, 100] |
| DepartmentApi.DepartmentService.constructor | src/services/api/departmentService.js:4-6 | the store starts as the given seed |
| DepartmentApi.DepartmentService.GetAll | src/services/api/departmentService.js:8-11 | returns the stored departments in order |
| DepartmentApi.DepartmentService.GetById | src/services/api/departmentService.js:13-20 | succeeds exactly when the Id is present; otherwise "Department not found" |
| DepartmentApi.DepartmentService.GetBedOccupancy | src/services/api/departmentService.js:53-61 | one entry per department in store order with its name and bed counts copied and its rate equal to `RateOf` of its counts (rate × beds = 100 × occupied), defined exactly for departments with beds |
| DepartmentApi.DepartmentService.Create | src/services/api/departmentService.js:22-31 | appends one department with an Id above every existing one and status Active; unique Ids stay unique |
| DepartmentApi.DepartmentService.Update | src/services/api/departmentService.js:33-41 | fails and changes nothing on an absent Id; otherwise merges the patch into that one department only |
| DepartmentApi.DepartmentService.Delete | src/services/api/departmentService.js:43-51 | fails and changes nothing on an absent Id; otherwise removes exactly that department and keeps the rest in order |
| StaffApi.MergeSpec | src/services/api/staffService.js:54 | per-field overwrite-or-keep of the shallow merge, and idempotence |
| StaffApi.StaffService.constructor | src/services/api/staffService.js:4-6 | the store starts as the given seed |
| StaffApi.StaffService.GetAll | src/services/api/staffService.js:8-11 | returns the stored members in order |
| StaffApi.StaffService.GetById | src/services/api/staffService.js:13-20 | succeeds exactly when the Id is present; otherwise "Staff member not found" |
| StaffApi.StaffService.GetByDepartment | src/services/api/staffService.js:22-27 | exactly the members whose department equals the argument ignoring case, with their multiplicities, order preserved |
| StaffApi.StaffService.GetByRole | src/services/api/staffService.js:29-34 | exactly the members whose role equals the argument ignoring case, with their multiplicities, order preserved |
| StaffApi.StaffService.Create | src/services/api/staffService.js:36-46 | appends one member with an Id above every existing one, status Active and today's date as hire date over any supplied values; unique Ids stay unique |
| StaffApi.StaffService.Update | src/services/api/staffService.js:48-56 | fails and changes nothing on an absent Id; otherwise merges the patch into that one member only |
| StaffApi.StaffService.Delete | src/services/api/staffService.js:58-66 | fails and changes nothing on an absent Id; otherwise removes exactly that member and keeps the rest in order |
| Text.ContainsIff | src/services/api/patientService.js:57-60 | `includes` holds exactly when the query occurs at some position of the text |
| Text.SearchIsCaseInsensitiveSubstring | src/services/api/patientService.js:57-59 | "an" matches "Anna" and "Sanders" ignoring case, and does not match "Bob" |
| Text.TrimEmptyIffBlank | src/components/pages/Billing.jsx:49 | a string trims to empty exactly when every character is whitespace |
| BillingPage.ByStatus | src/components/pages/Billing.jsx:43-46 | "All" keeps every bill; any other status keeps exactly the bills with that status; order preserved |
| BillingPage.BySearch | src/components/pages/Billing.jsx:48-54 | a blank query keeps every bill; otherwise exactly the bills whose patient name or invoice number contains the untrimmed query ignoring case; order preserved |
| BillingPage.FilterBills | src/components/pages/Billing.jsx:40-57 | a bill is shown exactly when it passes both the status and the search filter, as often as it occurs among the bills, and the list is an order-preserving subsequence of the bills |
| BillingPage.StatusOptions | src/components/pages/Billing.jsx:81 | "All" followed by every status that occurs, each once, in order of first occurrence |
| BillingPage.Stats | src/components/pages/Billing.jsx:84-87 | outstanding is revenue minus collected and also the sum of amount minus paidAmount; the overdue count is the number of bills whose stored status is Overdue (`Count`, one position at a time), zero exactly when there is none |
| BillingPage.StatsAgreeWithSummary | src/components/pages/Billing.jsx:84-86 | the page's revenue, collected and outstanding equal the service summary's over the same bills |
| BillingPage.StoredStatusIsNotDueDate | src/components/pages/Billing.jsx:87 | a Pending bill past its due date is overdue for the service yet not counted by the page |
| StaffPage.ByRole | src/components/pages/Staff.jsx:41-44 | "All" keeps everyone; any other role keeps exactly the members with that role; order preserved |
| StaffPage.BySearch | src/components/pages/Staff.jsx:46-54 | a blank query keeps everyone; otherwise exactly the members whose name, department, specialization (when present) or email contains the query ignoring case |
| StaffPage.FilterStaff | src/components/pages/Staff.jsx:38-57 | a member is shown exactly when it passes both filters, as often as it occurs in the list; order preserved |
| StaffPage.NoMatchingDoctorGivesEmpty | src/components/pages/Staff.jsx:38-57 | role Doctor with a query no doctor matches shows nothing, whoever else matches |
| StaffPage.RoleOptions | src/components/pages/Staff.jsx:71 | "All" followed by every role that occurs, each once, in order of first occurrence |
| StaffPage.RoleCount | src/components/pages/Staff.jsx:74-77 | the count is the number of members with exactly that role (`Count`), at most the number of members, and zero exactly when nobody has it |
| StaffPage.RoleCountsBounded | src/components/pages/Staff.jsx:74-77 | the Doctor, Nurse, Admin and Technician counts add up to at most the number of members |
| PatientsPage.FilterPatients | src/components/pages/Patients.jsx:37-49 | a blank query shows every patient; otherwise the same selection as the service search; order preserved |
| PatientsPage.ActiveCount | src/components/pages/Patients.jsx:116 | the number of patients whose status is Active (`Count`), at most the total, equal to it exactly when everyone is Active, zero exactly when nobody is |
| PatientsPage.RecentVisitCount | src/components/pages/Patients.jsx:127 | the number of patients with a recorded visit later than one week before now (`Count`), at most the total, and zero exactly when every patient either never visited or visited a week or more before now |
| PatientsPage.NeverVisitedNotCounted | src/components/pages/Patients.jsx:127 | the recent-visit count never exceeds the number of patients with a recorded visit |
| DepartmentsPage.SumFreeIsDifference | src/components/pages/Departments.jsx:52 | the per-department available beds add up to total beds minus total occupied |
| DepartmentsPage.OverallOccupancy | src/components/pages/Departments.jsx:51 | zero when there are no beds, otherwise rate × beds = 100 × occupied |
| DepartmentsPage.Stats | src/components/pages/Departments.jsx:49-52 | the bed totals are non-negative sums, available is their difference and also the sum of each card's available beds, and the occupancy is the guarded one |
| DepartmentsPage.StatsInRange | src/components/pages/Departments.jsx:49-52 | with no department over capacity: occupied at most total, available non-negative, overall occupancy in [0, 100] |
| DepartmentsPage.RoundedAtLeast | src/components/pages/Departments.jsx:120 | the whole-percent rate is at least n exactly when 200 × occupied ≥ (2n − 1) × beds |
| DepartmentsPage.DepartmentBand | src/components/pages/Departments.jsx:120-122 | High exactly from 89.5 % occupancy or when a department without beds has occupied beds; Medium exactly from 69.5 % up to that; Low otherwise |
| DepartmentsPage.Chips | src/components/pages/Departments.jsx:191-203 | the first min(2, n) specialties are shown, and a "+k more" chip appears exactly when n > 2, with k = n − 2 |
| DashboardPage.Stats | src/components/pages/Dashboard.jsx:59-69 | active patients is the Active count and at most the total; today's count is the same-day selection; beds and the guarded rate are the Departments page's figures |
| DashboardPage.InsertByDateDesc | src/components/pages/Dashboard.jsx:72 | inserting into a latest-first list keeps it latest first and adds exactly that appointment |
| DashboardPage.SortByDateDesc | src/components/pages/Dashboard.jsx:72 | the result is latest first and a permutation of the input |
| DashboardPage.RecentAppointments | src/components/pages/Dashboard.jsx:71-73 | min(5, n) appointments, latest first, drawn from the list, and no appointment left out is later than one shown |
| DashboardPage.SortAndTakeRecent | src/components/pages/Dashboard.jsx:71-73 | the array is reordered in place to latest first with the same elements, and the first five of it are returned |
| DashboardPage.DepartmentOverview | src/components/pages/Dashboard.jsx:147-148 | the first min(5, n) departments with their names, bed counts and unguarded rates |
| DashboardPage.OverviewIsReportPrefix | src/components/pages/Dashboard.jsx:147-148 | the overview rows are the first rows of the service's bed-occupancy report |
| AppointmentsPage.Upcoming | src/components/pages/Appointments.jsx:58-62 | exactly the appointments at or after now, with their multiplicities, order preserved |
| AppointmentsPage.Stats | src/components/pages/Appointments.jsx:52-65 | today's are exactly the same-day ones and upcoming exactly those at or after now, each with its multiplicity; the Confirmed and Pending counts are the numbers of appointments with those statuses (`Count`), each zero exactly when none has it, and together at most the total |
| AppointmentsPage.ListView | src/components/pages/Appointments.jsx:162 | the first min(10, upcoming) upcoming appointments, all at or after now, an order-preserving subsequence of the list |

## Left out

- Latency: the `delay`/`setTimeout` wait and the promise wrapping of every service operation. The operations are synchronous here.
- Concurrency: overlapping asynchronous calls and their last-write-wins interleavings.
- Seeding: the initial stores come from mock JSON data, which is not part of this model. The constructors take any seed.
- Rendering: React state and effects, toasts, routing, markup and styling. The organisms, atoms, molecules and `App.jsx` hold only presentation.
- Dates: JavaScript date parsing and formatting (`new Date`, `toDateString`, `toISOString`, `getFullYear`, date-fns) become integer millisecond timestamps, with `now`, `year` and `today` passed in. Calendar days are counted in UTC; the local time zone is not modelled.
- Numbers: floating-point money is modelled as integers, and `toLocaleString` formatting is left out.
- Ids: `parseInt` of string ids is left out; ids are integers. A JavaScript spread patch with arbitrary keys becomes a record of optional fields.
- Text: lower-casing covers ASCII letters only; full Unicode case mapping is not modelled.
- BillingApi.BillingService.Create: requires a non-empty store. On an empty store the original computes `Math.max()` of no Ids, which is `-Infinity`, and assigns it as the Id.
- AppointmentApi.AppointmentService.Create: requires a non-empty store, for the same reason: the original assigns `-Infinity` as the Id when the store is empty.
- PatientApi.PatientService.Create: requires a non-empty store; the original assigns `-Infinity` as the Id when the store is empty.
- DepartmentApi.DepartmentService.Create: requires a non-empty store; the original assigns `-Infinity` as the Id when the store is empty.
- StaffApi.StaffService.Create: requires a non-empty store; the original assigns `-Infinity` as the Id when the store is empty. Today's date string is a parameter, not derived from the clock.
- BillingApi.BillingService.Update: Id uniqueness is promised only when the patch leaves the Id alone or sets it to the same value. A spread patch that sets another Id can break uniqueness in the original too. The same holds for the other services' `Update`.
- BillingApi.InvoiceNumberEncodesId: covers non-negative Ids only. For a negative Id, `padStart` pads the text with its minus sign (for example "-5" becomes "0-5"), which is not a run of digits.
- Aliasing: `getAll`, `getById` and the filter queries return new arrays (and, for `getById`, a copy), but the arrays hold the stored record objects themselves, so a caller that mutates a returned record changes the store. Records are values here, so this aliasing is not modelled.
- DepartmentApi.RateOf: the rate is exact. The one-decimal `toFixed(1)` text of `getBedOccupancy` is not modelled.
- DepartmentsPage.OverallOccupancy: the rate is exact. The `toFixed(1)` text is not modelled, and neither is the fact that the zero-bed fallback is the number 0 while the other case is a string.
- DashboardPage.DepartmentOverview: keeps the exact `Rate`. The `toFixed(0)` whole-percent text the overview shows is not modelled.
- DepartmentsPage.DepartmentBand: `toFixed(0)` is modelled as rounding halves up on the exact rate. Binary floating-point effects near a half are not.
- DashboardPage.SortByDateDesc: stability (ties keep their original order) is not proved, although the insertion places each element ahead of later-listed ties.
