# Jay Auto Repair site: storage, record shapes and form rules in Dafny

This project models the behavioural core of a small auto-repair marketing site:

- **`MemStorage`**, the server's in-memory repository (`server/storage.ts`). It holds two
  tables that grow in place, users and contact inquiries, each a JavaScript `Map` keyed by a
  generated id, and three catalogues seeded by its constructor: seven services, six cars and
  six testimonials. It is modelled as the class `Storage.MemStorage`. The tables are fields of
  type `OrderedMaps.OrderedMap`, which captures `Map` semantics: lookup by key, `set` that appends
  a new key or overwrites an existing one in place, and `values()` iterating in first-insertion
  order.
- **The record shapes** (`shared/schema.ts`), modelled as datatypes in `Schema`. A stored inquiry
  is the insert payload plus `id` and `createdAt`. `phone` is the only nullable payload column. A user is
  `{username, password}` plus `id`. `Service`, `Car` and `Testimonial` are plain records.
- **The contact form's schema and four display rules** from `client/src/pages/home.tsx`:
  - `ContactForm` models the field-by-field validator.
  - `HomeDisplay` models the service icon mapping, the "first three, then +N more" feature chips,
    the five-star rating row and the car photo fallback.

The generated id (`randomUUID()`) and the current time (`new Date()`) are parameters of the
operations that use them. There is no freshness precondition. A fresh id appends a record. An id
that is already in use overwrites that record in place, as `Map.set` does.

Two behaviours of the code are worth knowing, and the model states them as the code has them:
- The form's `min` rules (`client/src/pages/home.tsx:60` and `:64`) measure the raw string, with
  no trimming. `ContactForm.NoTrimmingNoClosedSet` shows that blanks satisfy both minimums.
- `users.username` is declared `.unique()` (`shared/schema.ts:51`), but `createUser`
  (`server/storage.ts:192-197`) stores the user without looking. `Storage.DuplicateUsernamesAreStored`
  shows two users with one username both being stored, for any store.

## Model

| member | source | states |
|---|---|---|
| `Storage.MemStorage.constructor` | server/storage.ts:24-180 | Both tables start empty and the catalogues are the seeds. |
| `Storage.MemStorage.GetUser` | server/storage.ts:182-184 | Returns the user stored under `id` or None. A returned user carries that id and is among the stored users. |
| `Storage.MemStorage.GetUserByUsername` | server/storage.ts:186-190 | A linear search over the users in insertion order. It returns the earliest user with that username, or None when no user has it. |
| `Storage.FirstWithUsernameIsUnique` | server/storage.ts:186-190 | The first-match description of `find` determines a single answer. |
| `Storage.MemStorage.CreateUser` | server/storage.ts:192-197 | Returns the payload plus the id. The users map becomes `Map.set(id, user)`, so a fresh id appends the user. Inquiries are unchanged. The table stays keyed by record id. |
| `Storage.DuplicateUsernamesAreStored` | server/storage.ts:192-197 | On any store, two users created under distinct fresh ids with one username are both stored, in order. This breaks the declared unique constraint. |
| `Storage.DuplicateUsernameLookupFindsFirst` | server/storage.ts:186-197 | When the username was new to the store, lookup after those two creations returns the earlier user. |
| `Storage.RegisterSameUsernameTwice` | server/storage.ts:182-197 | On a fresh store, after two registrations with one username, `getUser` finds each user under its own id and `getUserByUsername` returns the first. |
| `Storage.MemStorage.CreateContactInquiry` | server/storage.ts:199-208 | Returns the payload unchanged plus the id and the time. The map becomes `Map.set(id, inquiry)`, so a fresh id appends exactly this inquiry. Earlier inquiries and all users are unchanged, and the catalogues are constants. |
| `Storage.MemStorage.GetContactInquiries` | server/storage.ts:210-212 | Returns every stored inquiry in the order its id was first stored. The i-th entry carries the i-th id. |
| `Storage.SubmitTwice` | server/storage.ts:199-212 | On a fresh store, submitting the same payload under two distinct ids lists two inquiries. They appear in submission order, each with its own id and time, and both carry the payload. |
| `Storage.MemStorage.GetServices` | server/storage.ts:214-216 | Returns the seeded services. The method has no side effect. |
| `Storage.MemStorage.GetCars` | server/storage.ts:218-220 | Returns the seeded cars. The method has no side effect. |
| `Storage.MemStorage.GetTestimonials` | server/storage.ts:222-224 | Returns the seeded testimonials. The method has no side effect. |
| `OrderedMaps.OrderedMap.Get` | server/storage.ts:183 | `Map.get` yields a value exactly for the keys listed in insertion order, and that value is the key's entry. |
| `OrderedMaps.OrderedMap.Values` | server/storage.ts:210-211 | `Array.from(map.values())` has one value per listed key. The i-th value is what `get` returns for the i-th key in insertion order. |
| `OrderedMaps.ValuesCountEntries` | server/storage.ts:187-211 | `values()` yields exactly as many values as the map has entries. |
| `OrderedMaps.Empty` | server/storage.ts:25-26 | `new Map()` is well formed, has no values and maps every key to undefined. |
| `OrderedMaps.OrderedMap.Set` | server/storage.ts:195-206 | `Map.set` keeps the map well formed. It maps `k` to the new value, leaves every other key as it was, and adds `k` to the key set. |
| `OrderedMaps.SetFreshAppends` | server/storage.ts:206-211 | Setting a new key appends its value to the iteration order. |
| `OrderedMaps.SetExistingInPlace` | server/storage.ts:206-211 | Setting an existing key keeps the order and replaces the value at that key's position. |
| `OrderedMaps.ValuesAreEntries` | server/storage.ts:210-211 | A value is among `values()` exactly when some key maps to it. |
| `OrderedMaps.SetTwiceFresh` | server/storage.ts:206-211 | Two sets under distinct fresh keys put both values at the end, in call order. |
| `Schema.NewInquiry` | server/storage.ts:199-205 | A stored inquiry carries the payload's name, email, phone, service type and message unchanged. It also carries the new id and `createdAt` set to the insertion time. |
| `Schema.InquiryIsPayloadPlusGenerated` | shared/schema.ts:15-21 | Any stored inquiry with a timestamp is exactly its insert payload, which omits `id` and `createdAt`, plus those two fields. |
| `Schema.UsernamesUnique` | shared/schema.ts:51 | The declared `unique()` constraint: no two stored users share a username. |
| `Schema.UsernamesUniqueAppend` | shared/schema.ts:49-53 | Appending a user keeps the constraint exactly when no stored user already has its username. This is the check an insert would need to make. |
| `Schema.NewUser` | server/storage.ts:193-194 | A new user carries the given id. Its remaining fields are exactly the `InsertUser` payload of username and password. |
| `SeedData.Services` | server/storage.ts:28-71 | The constructor seeds seven services with ids "1" to "7" in order. |
| `SeedData.Cars` | server/storage.ts:73-134 | The constructor seeds six cars with ids "1" to "6". Each has non-negative price and mileage and at least one feature. |
| `SeedData.Testimonials` | server/storage.ts:136-179 | The constructor seeds six testimonials with ids "1" to "6". Every one is rated 5. |
| `SeedData.SeededCatalogues` | server/storage.ts:28-179 | Ids are unique within each catalogue. Every testimonial rating lies in 0 to 5. |
| `ContactForm.Validate` | client/src/pages/home.tsx:59-65 | The form is accepted, with its values unchanged, exactly when every field passes its rule. Otherwise it is rejected with a non-empty issue list, and each issue carries its field's own message. |
| `ContactForm.FailingFields` | client/src/pages/home.tsx:59-65 | A field is failing exactly when its rule fails. The optional phone never fails. |
| `ContactForm.RejectionNamesExactlyFailingFields` | client/src/pages/home.tsx:59-65 | A rejection names exactly the failing fields, never the phone, each once and in declaration order. |
| `ContactForm.NoTrimmingNoClosedSet` | client/src/pages/home.tsx:59-65 | Lengths count raw characters, so blank names and messages of the minimum length pass. Any non-empty service type passes, including one the picker does not offer. |
| `ContactForm.AcceptsExample` | client/src/pages/home.tsx:59-65 | A well-formed submission ("Al", a valid e-mail, "repair", a 23-character message) is accepted as is. |
| `ContactForm.RejectsEveryFailingField` | client/src/pages/home.tsx:59-65 | A submission that breaks the name, e-mail, service-type and message rules yields all four issues, in order, with their messages. |
| `HomeDisplay.ServiceIcon` | client/src/pages/home.tsx:86-106 | Each of the seven recognised keys maps to its icon. Every other key maps to the wrench, so the mapping is total. |
| `HomeDisplay.SeededServiceIconsDistinct` | client/src/pages/home.tsx:86-106 | Every seeded service uses a recognised key, and the seven seeded services show seven different icons. |
| `HomeDisplay.FeatureChips` | client/src/pages/home.tsx:605-617 | For n features, the first min(3, n) are shown. A "+(n-3) more" chip appears iff n > 3. Shown plus more accounts for every feature. |
| `HomeDisplay.SeededCarChips` | client/src/pages/home.tsx:605-617 | Every seeded car shows three chips. Exactly the cars with four features get "+1 more". |
| `HomeDisplay.Stars` | client/src/pages/home.tsx:757-765 | The row has n stars, star i filled iff i < rating, so the filled stars come first. |
| `HomeDisplay.FilledStarsIsClampedRating` | client/src/pages/home.tsx:757-765 | The number of filled stars is the rating clamped to 0 to n. |
| `HomeDisplay.SeededTestimonialStars` | client/src/pages/home.tsx:757-765 | Every seeded testimonial shows five filled stars out of five. |
| `HomeDisplay.CarImage` | client/src/pages/home.tsx:77-84 | A car id "1" to "6" gets its own photo. Any other id falls back to the first photo. |
| `HomeDisplay.SeededCarImagesDistinct` | client/src/pages/home.tsx:77-84 | Every seeded car has a photo of its own. No two seeded cars share a photo, and none uses the fallback. |

## Left out

- `randomUUID()` and `new Date()` become parameters. Randomness and clocks are not modelled, so id uniqueness is not a guarantee of the model. Instead both outcomes of an id collision are stated.
- The `IStorage` interface, the `async`/`Promise` wrappers and the exported `storage` singleton are left out. The methods are modelled as synchronous because nothing concurrent happens.
- The catalogue getters return the class's own arrays by reference, so a caller could mutate them. The model returns immutable sequences, which means aliasing of those arrays is not captured.
- `zod`'s `.email()` format check is a library regex that cannot be seen here. Validity is the parameter `isEmail`.
- The server route that receives the form (`server/routes.ts`) is not part of this model.
- The `created_at` column default (`shared/schema.ts:12`) is a database-level default. MemStorage sets `createdAt` itself, so the default is not modelled.
- drizzle table definitions are modelled as datatypes only. The primary-key and unique constraints are database-level. MemStorage does not enforce them, and `Schema.UsernamesUnique` states the declared username constraint.
- Numbers are modelled as `int`. JavaScript numbers are doubles, so fractional prices and ratings are not modelled. A rating of 4.5 would fill five stars.
- String lengths count characters. JavaScript counts UTF-16 code units, so strings outside the Basic Multilingual Plane are not modelled.
- A car id that names an inherited `Object.prototype` property (such as "toString") makes `carImages[id]` truthy in JavaScript. The model treats such an id as absent.
- Object spreads of payloads that carry extra keys are not modelled. Payloads have exactly the schema's fields.
- A stored phone may be absent, null or a string (`Schema.MaybeText`). The form's phone is absent or a string.
- Imported photo assets are modelled by their import paths.
- All React rendering, hooks, react-query fetching and mutation, toasts, theme persistence in `localStorage`, scroll handling and `toLocaleString` formatting are presentation or browser I/O.
