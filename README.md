# Autoclass dealership site: a verified model of its decision rules

The site is a car dealership's marketing front end with a small admin panel.
Almost all of it is page markup; what it decides on its own is small and is
modelled here:

- the **admin guard** shared by the car list, dashboard, add-car and edit-car
  pages (redirect to `/auth`, to `/`, or stay), and each page's loading gate
  and screen order;
- the **listing rules**: the admin search (title or ad reference, case
  ignored), the home page's first six unsold cars, the dashboard counts;
- the **forms**: the admin car form's starting values, validation rules and
  single-field `setValue` controls, and the contact form's
  validate-then-clear submit;
- the **display fallbacks** of the WordPress-backed card and detail page
  (placeholder image, "Contact for Price", "N/A") and the card's link;
- the **record types** of the backend table and of the WordPress post.

Backend calls, navigation, toasts and the confirmation dialog are outside the
model: a backend result is an input (`Feedback.MutationResult`, the query
records); on the admin pages navigation, toasts and cache invalidation are
output values (`Feedback.Effect`), the contact page's toasts are
`Contact.Notice` values, and the confirmation dialog's answer is a `bool` input.
The current year is a parameter.

Modules follow the source files: `DatabaseTypes` (src/types/database.ts),
`WordPressTypes` (src/types/car.ts), `AccessGuard` (the guard copied into the
four admin pages), `AdminCarList`, `AdminDashboard`, `AddCar`, `EditCar`,
`IndexPage`, `CarForm`, `Contact`, `CarCard`, `CarDetails`, with helpers in
`Wrappers`, `Text`, `Seqs` and `Feedback`, and `AdminPages` putting the four
admin pages side by side. State that the source changes in place is modelled as a class:
`Contact.ContactForm` (the `formData` state cell), `CarForm.CarFormState`
(the values `setValue` writes) and `AdminCarList.CarListState` (the search
term, the delete calls issued and the effects emitted).

The guard is modelled as the code is written. A design in which no verdict
is given until both the sign-in lookup and the role lookup have finished is
kept beside it as `AccessGuard.SettledVerdict`; the two agree once both
lookups are done (`AccessGuard.AgreesOnceSettled`). They disagree while the
sign-in lookup is still running: the code already redirects home when the
role lookup has settled to "not an admin"
(`AccessGuard.RedirectsHomeBeforeSignInSettles`).

## Model

| member | source | states |
|---|---|---|
| AccessGuard.Decide | src/pages/admin/CarList.tsx:31-37 | redirect to `/auth` exactly when sign-in finished with no user; redirect home exactly when that case does not hold, the role lookup finished and the user is not an admin, even while sign-in is still loading; no redirect exactly in the remaining cases, in particular for a signed-in admin once both lookups are done |
| AccessGuard.SettledVerdict | src/pages/admin/CarList.tsx:31-37 | reference decision that waits: pending exactly while a lookup runs; allowing only a signed-in admin |
| AccessGuard.AgreesOnceSettled | src/pages/admin/CarList.tsx:31-37 | once neither lookup is loading, the page guard issues the same redirect as the waiting decision |
| AccessGuard.RedirectsHomeBeforeSignInSettles | src/pages/admin/CarList.tsx:34-35 | with sign-in still loading and the role settled to false, the guard already sends the visitor home while the waiting decision is still pending |
| AdminPages.SameGuardOnEveryPage | src/pages/admin/Dashboard.tsx:18-24 | the list, dashboard, add-car and edit-car pages issue the same redirect for every session, whatever else they have loaded |
| Text.Lower | src/pages/admin/CarList.tsx:68-69 | lower-casing keeps the length, turns each ASCII letter A-Z into its lower-case letter, leaves every other character as it is, and leaves no upper-case ASCII letter |
| Text.LowerAgrees | src/pages/admin/CarList.tsx:68-69 | two strings of the same length whose characters agree up to case lower-case to the same string |
| Text.LowerIdempotent | src/pages/admin/CarList.tsx:68-69 | lower-casing an already lower-cased string changes nothing |
| Text.IncludesIff | src/pages/admin/CarList.tsx:68-69 | `includes` holds exactly when the needle occurs at some offset of the string |
| Text.IncludesEmpty | src/pages/admin/CarList.tsx:68 | every string includes the empty string |
| Text.NatToString | src/components/CarCard.tsx:50 | the rendering of an id is a non-empty string of decimal digits with no leading zero ("0" alone for 0) |
| Text.NatToStringParseNat | src/components/CarCard.tsx:50 | a digit string without a leading zero is exactly the rendering of the number it reads as, so the rendering is the only such string for its number |
| Text.ParseNatToString | src/components/CarCard.tsx:50 | the decimal rendering of a number reads back as that number |
| Seqs.Filter | src/pages/admin/CarList.tsx:67-70 | the filtered sequence is no longer than the input and every element in it passes the test |
| Seqs.Take | src/pages/Index.tsx:12 | `slice(0, n)` is a prefix of the input whose length is the smaller of n and the input's length |
| Seqs.FilterIsSubsequence | src/pages/admin/CarList.tsx:67-70 | filtering keeps the input's relative order |
| Seqs.FilterMembership | src/pages/admin/CarList.tsx:67-70 | an element is in the result exactly when it is in the input and passes the test |
| Seqs.FilterCount | src/pages/admin/CarList.tsx:67-70 | each element that passes is kept as many times as it occurs in the input, and every other element not at all |
| Seqs.FilterKeepsAll | src/pages/admin/CarList.tsx:67-70 | when every element passes, the result is the input |
| Seqs.FilterSplitsLength | src/pages/admin/Dashboard.tsx:86 | the elements passing a test and those failing it add up to the whole input |
| Seqs.PrefixOfSubsequence | src/pages/Index.tsx:12 | a prefix of an order-preserving selection is still an order-preserving selection |
| AdminCarList.FilteredCars | src/pages/admin/CarList.tsx:67-70 | absent while the list is absent; otherwise an order-preserving selection holding exactly the cars whose lower-cased title, or non-null ad reference, contains the lower-cased term; each kept car appears as many times as in the loaded list |
| AdminCarList.EmptySearchKeepsAll | src/pages/admin/CarList.tsx:67-69 | an empty search term keeps every car, in order |
| AdminCarList.SearchIgnoresCase | src/pages/admin/CarList.tsx:68-69 | any two search terms that differ only in the case of their letters select the same cars, in the same order |
| AdminCarList.UpperAndMixedCaseAgree | src/pages/admin/CarList.tsx:68-69 | searching "COROLLA" and searching "Corolla" give the same list |
| AdminCarList.SearchForLowerCasedTerm | src/pages/admin/CarList.tsx:68-69 | searching for a term and for its lower-cased form gives the same list |
| AdminCarList.WithoutReferenceOnlyTitleCounts | src/pages/admin/CarList.tsx:69 | a car with a null ad reference is kept exactly when its title matches |
| AdminCarList.ShowsEmptyMessage | src/pages/admin/CarList.tsx:152 | "No cars found" shows exactly when the filtered list is absent or empty |
| AdminCarList.Render | src/pages/admin/CarList.tsx:72-74 | the page's redirect is the shared guard's; the loading view shows exactly when sign-in, role or list is loading; otherwise the table lists the filtered cars and shows the empty message exactly when it has no rows |
| AdminCarList.DeleteRequests | src/pages/admin/CarList.tsx:137-141 | a click issues at most one delete, of that car, and one exactly when the confirmation returned true |
| AdminCarList.DeleteSettled | src/pages/admin/CarList.tsx:58-64 | a success gives exactly the list invalidation and the 'Car deleted successfully' toast; a failure gives exactly one error toast with the error message, or 'Failed to delete car' when it is empty |
| AdminCarList.CarListState.CurrentPage | src/pages/admin/CarList.tsx:67-74 | the page rendered with the current search term, whose table lists exactly the loaded cars matching that term |
| AdminCarList.CarListState.constructor | src/pages/admin/CarList.tsx:29 | the search term starts empty, with no delete calls and no effects |
| AdminCarList.CarListState.SetSearchTerm | src/pages/admin/CarList.tsx:94 | typing replaces the search term and nothing else |
| AdminCarList.CarListState.ClickDelete | src/pages/admin/CarList.tsx:137-141 | the delete calls grow by the click's requests; term and effects are unchanged |
| AdminCarList.CarListState.DeleteDone | src/pages/admin/CarList.tsx:53-65 | the effects grow by the settled delete's effects; term and calls are unchanged |
| AdminDashboard.StatsFromCounts | src/pages/admin/Dashboard.tsx:34-37 | each statistic is its returned count, or 0 when the count is missing |
| AdminDashboard.DisplayedTiles | src/pages/admin/Dashboard.tsx:65-86 | "Available" is always "Total" minus "Sold"; all three are 0 until the statistics arrive, then total and sold are the statistics |
| AdminDashboard.AvailableIsUnsoldCount | src/pages/admin/Dashboard.tsx:29-37 | when both counts are taken over the same table, "Available" is the number of cars not sold |
| AdminDashboard.Render | src/pages/admin/Dashboard.tsx:42-44 | the redirect is the shared guard's; the loading view shows exactly when sign-in or role is loading; otherwise the tiles |
| AddCar.InsertRows | src/pages/admin/AddCar.tsx:27-30 | exactly one row is inserted: the form data unchanged, with `created_by` the user's id when there is a user and absent otherwise |
| AddCar.CreateSettled | src/pages/admin/AddCar.tsx:33-39 | a success gives exactly the 'Car added successfully' toast and navigation to `/admin/cars`; a failure gives exactly one error toast with the error message, or 'Failed to add car' |
| AddCar.Render | src/pages/admin/AddCar.tsx:42-44 | the redirect is the shared guard's; the loading view shows exactly when sign-in or role is loading; otherwise the form with its no-defaults values |
| AddCar.AddedCarReopensUnchanged | src/pages/admin/AddCar.tsx:27-30 | values accepted by the form, stored as sent, open in the edit form exactly as they were submitted |
| EditCar.QueryEnabled | src/pages/admin/EditCar.tsx:39 | the car is fetched exactly when the user is an admin and the route id is present and non-empty |
| EditCar.UpdateFor | src/pages/admin/EditCar.tsx:44-47 | the update carries the form data unchanged and targets the route id |
| EditCar.SaveWithoutEditsKeepsCar | src/pages/admin/EditCar.tsx:73 | when the form accepts an opened car saved without edits, the update sent targets that car and carries its own values, nulls as their form fallbacks and a year of 0 as the current year |
| EditCar.SaveWithoutImageRejected | src/pages/admin/EditCar.tsx:73 | an opened car with a null or empty image URL is not saved as it is: the form rejects it with 'Image URL is required' |
| EditCar.UpdateSettled | src/pages/admin/EditCar.tsx:50-56 | a success gives exactly the 'Car updated successfully' toast and navigation to `/admin/cars`; a failure gives exactly one error toast with the error message, or 'Failed to update car' |
| EditCar.Render | src/pages/admin/EditCar.tsx:59-65 | the redirect is the shared guard's; the loading view exactly when any of the three loads runs; "Car not found" exactly when none runs and there is no car; otherwise the form seeded with the car |
| IndexPage.AvailableCars | src/pages/Index.tsx:12 | at most six cars, none sold, a prefix of the unsold cars in input order; all unsold cars when there are six or fewer, and six when there are at least six |
| IndexPage.FeaturedInCatalogOrder | src/pages/Index.tsx:12 | the featured cars are an order-preserving selection of the catalog |
| IndexPage.FeaturedMembership | src/pages/Index.tsx:12 | a featured car is in the catalog and unsold; with six or fewer unsold cars, featured means exactly in the catalog and unsold |
| CarForm.DefaultValues | src/components/admin/CarForm.tsx:38-55 | with no defaults: empty strings, price 0, not sold, the current year, Petrol, Automatic, Local, Sedan; each supplied text field (title, image URL, descriptions, mileage, city, province, color, engine capacity) is kept and each missing one is ''; a missing price is 0; a year of 0 or none becomes the current year; absent flags and choices fall back to false, Petrol, Automatic, Local, Sedan |
| CarForm.NumberOr | src/components/admin/CarForm.tsx:41-45 | the or-fallback of price (to 0) and year (to the current year): a non-zero number is kept, a missing one or 0 gives the fallback |
| CarForm.FromCar | src/pages/admin/EditCar.tsx:73 | the stored car handed in as defaults: its never-null columns always supplied, its nullable columns supplied exactly when set |
| CarForm.DefaultsFromCar | src/components/admin/CarForm.tsx:39-54 | opening the form on a car gives its own values, '' for null text and Local/Sedan for null choices; only a year of 0 is replaced, by the current year |
| CarForm.TextErrors | src/components/admin/CarForm.tsx:71 | a required text input fails exactly when empty, and then only with its `required` message, so at most one error |
| CarForm.NumberErrors | src/components/admin/CarForm.tsx:93 | a required number input fails with `required` exactly when blank, with the upper bound exactly when above it, with the lower bound exactly when below it and not above the upper; at most one error is reported, and only a `required`, lower-bound or upper-bound one |
| CarForm.Validate | src/components/admin/CarForm.tsx:71-104 | no error exactly when title and image URL are non-empty, price is entered and at least 0, and year is entered and within 1900 to next year; each of 'Title is required', 'Image URL is required', 'Price is required', 'Year is required' and each bound error appears exactly when its condition holds; no field is reported twice, and no error other than these seven ever appears |
| CarForm.Submit | src/components/admin/CarForm.tsx:61 | the values reach the page exactly when no rule fails, and then unchanged; otherwise the (non-empty) errors are reported |
| CarForm.AcceptedValuesAreComplete | src/components/admin/CarForm.tsx:71-104 | accepted values have a title, an image URL, a price of at least 0 and a non-zero year |
| CarForm.CarFormState.constructor | src/components/admin/CarForm.tsx:37-56 | the form starts from the default values |
| CarForm.CarFormState.SetIsSold | src/components/admin/CarForm.tsx:134 | the switch changes `is_sold` and no other field |
| CarForm.CarFormState.SetFuelType | src/components/admin/CarForm.tsx:151 | the select changes the fuel type and no other field |
| CarForm.CarFormState.SetTransmission | src/components/admin/CarForm.tsx:171 | the select changes the transmission and no other field |
| CarForm.CarFormState.SetBodyType | src/components/admin/CarForm.tsx:209 | the select changes the body type and no other field |
| CarForm.CarFormState.SetAssembly | src/components/admin/CarForm.tsx:232 | the select changes the assembly and no other field |
| CarForm.CarFormState.HandleSubmit | src/components/admin/CarForm.tsx:61 | submitting gives the submission outcome of the current values |
| Contact.Submit | src/pages/Contact.tsx:19-45 | rejected with the error toast exactly when name, email or message is empty, leaving the data as it was; otherwise the success toast and all four fields empty |
| Contact.PhoneNotRequired | src/pages/Contact.tsx:23 | the phone number never changes whether a submission is accepted |
| Contact.ResubmitAfterSuccessRejected | src/pages/Contact.tsx:38-44 | submitting again right after a success is rejected, since the form was cleared |
| Contact.ContactForm.constructor | src/pages/Contact.tsx:12-17 | all four fields start empty |
| Contact.ContactForm.SetName | src/pages/Contact.tsx:79 | editing the name changes only the name |
| Contact.ContactForm.SetEmail | src/pages/Contact.tsx:92 | editing the email changes only the email |
| Contact.ContactForm.SetPhone | src/pages/Contact.tsx:105 | editing the phone changes only the phone |
| Contact.ContactForm.SetMessage | src/pages/Contact.tsx:117 | editing the message changes only the message |
| Contact.ContactForm.HandleSubmit | src/pages/Contact.tsx:19-45 | a rejected submit leaves the form unchanged; an accepted one clears every field; the toast is the one the submission rule gives |
| CarCard.DetailLink | src/components/CarCard.tsx:50 | the link is `/cars/` followed only by decimal digits, with no leading zero |
| CarCard.DetailLinkUnique | src/components/CarCard.tsx:50 | any `/cars/` path followed by digits without a leading zero that read back as the car's id is exactly the card's link, so the link is `/cars/` followed by the id |
| CarCard.DetailLinkNamesCar | src/components/CarCard.tsx:50 | what follows `/cars/` reads back as the car's id |
| CarCard.Card | src/components/CarCard.tsx:12-19 | the title is `title.rendered`; the image, price, year and mileage are never blank: the first embedded media URL or the placeholder, the truthy price or "Contact for Price" (also for a numeric 0), the truthy year or mileage or "N/A" |
| CarDetails.View | src/pages/CarDetails.tsx:54-65 | the title is `title.rendered`; the image falls back to the placeholder, the price to "Contact for Price", the year, mileage, fuel type, transmission, engine and color to "N/A", so none is ever blank |
| CarDetails.Render | src/pages/CarDetails.tsx:19-52 | loading wins over everything; then an error or a missing car gives the failure view; the details show exactly when nothing is loading, there is no error and there is a car |
| CarDetails.AgreesWithCard | src/pages/CarDetails.tsx:54-61 | the card and the detail page show the same title, price, year and mileage, and the same image exactly when the car has a non-empty media URL |
| WordPressTypes.FirstMediaUrl | src/types/car.ts:20-25 | there is a URL exactly when the embedded featured-media list exists and is non-empty, and it is the first entry's `source_url` |
| WordPressTypes.ImageOr | src/components/CarCard.tsx:12-14 | the first media URL when present and non-empty, else the placeholder |
| WordPressTypes.ScalarOr | src/components/CarCard.tsx:17-18 | a truthy string-or-number value is kept, anything else gives the fallback text, so the result is truthy |
| Text.OrElse | src/pages/admin/CarList.tsx:63 | the or-fallback on a string: a non-empty value is kept, a missing or empty one gives the fallback, so with a non-empty fallback the result is never blank (error toasts, "N/A" fields, form text defaults) |
| Feedback.Settle | src/pages/admin/CarList.tsx:58-64 | a settled mutation yields its success effects, or a single error toast with the message or the fallback text |
| DatabaseTypes.ParseFuelType | src/types/database.ts:11 | the fuel type is exactly one of Petrol, Diesel, Hybrid, Electric, CNG, LPG |
| DatabaseTypes.ParseTransmission | src/types/database.ts:12 | the transmission is exactly Automatic or Manual |
| DatabaseTypes.ParseAssembly | src/types/database.ts:16 | a non-null assembly is exactly Local or Imported |
| DatabaseTypes.ParseBodyType | src/types/database.ts:18 | a non-null body type is exactly one of the nine listed names |
| DatabaseTypes.ParseRole | src/types/database.ts:28 | a role is exactly 'admin' or 'user' |

The record types themselves are datatypes: `DatabaseTypes.Car` and
`DatabaseTypes.UserRole` (src/types/database.ts:1-30) with `Option` for every
nullable column, and `WordPressTypes.Car`, `Acf`, `Media`, `Embedded` and
`CarFilters` (src/types/car.ts:1-34), where `acf` and each of its fields are
optional and price and year are a string-or-number `Scalar`.

## Left out

- Backend and network calls (the hosted backend's queries, insert, update and delete, and `fetch` in src/lib/api.ts): their results are inputs; the list's ordering by `created_at` is the backend's.
- The query library: caching, `invalidateQueries` scheduling and the `enabled: isAdmin` flag of the list and statistics queries (src/pages/admin/CarList.tsx:50, src/pages/admin/Dashboard.tsx:39); only the edit page's `enabled` condition is modelled.
- The form library's text inputs (`register` on text fields): typing into them is not modelled; the form's values are taken as a whole at submission. Number inputs hold whole numbers or nothing; decimals and non-numeric text are not modelled.
- Stored prices and years (the table's `price` and `year` columns) and the WordPress `acf.price` and `acf.year` numbers are whole numbers; no modelled decision depends on fractions, since JavaScript truthiness only tests a number for 0.
- The browser's own constraint validation on the contact form (src/pages/Contact.tsx:80, 93, 118 mark name, email and message `required`, and line 89 makes the email `type="email"`) is not modelled: the model takes every submit event to reach `handleSubmit`, so it accepts an email such as "abc" and reaches the error toast that, in a browser, blocked submission makes unreachable.
- Navigation, toasts, `window.history.back`, `window.open` and `confirm` are effects or inputs, not performed.
- `toLocaleString` price formatting; `toLowerCase` is modelled on ASCII letters only, not full Unicode.
- The current year is a parameter rather than the clock.
- JavaScript's `NaN` is not modelled: a number is falsy only when it is 0.
- WordPress post ids are non-negative integers.
- AddCar.StoredCar: assumes the table stores each column of the inserted row as sent; the backend's own defaults and triggers are not part of this model.
- Range filtering by price and year: the files modelled contain none; `CarFilters` (src/types/car.ts:28-34) is only a type.
- The home page's car list comes from src/data/cars, which is not part of this model; its records are taken to have the table's `Car` shape.
- Rendering of post HTML (`dangerouslySetInnerHTML`) and all page markup; About, Footer, Navbar, App (routes), Cars (renders every car unchanged) and WhatsAppButton have no decision logic.
