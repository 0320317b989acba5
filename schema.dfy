/**
 * The record shapes shared by client and server: the two tables (contact inquiries
 * and users) with their insert payloads, and the three catalogue entities.
 */
module Schema {
  import opened Wrappers

  /** A `Date`, as milliseconds since the epoch. */
  type Timestamp = int

  /**
   * A nullable text column read through an insert schema that also lets the key be
   * left out: absent, explicitly null, or a string.
   */
  datatype MaybeText = Missing | Null | Present(text: string)

  /** The insert payload: every column but `id` and `createdAt`. */
  datatype InsertContactInquiry = InsertContactInquiry(
    name: string,
    email: string,
    phone: MaybeText,
    serviceType: string,
    message: string)

  /** A stored row of `contact_inquiries`; `created_at` has no not-null constraint. */
  datatype ContactInquiry = ContactInquiry(
    id: string,
    name: string,
    email: string,
    phone: MaybeText,
    serviceType: string,
    message: string,
    createdAt: Option<Timestamp>)

  /** The payload part of a stored inquiry (the columns the insert schema keeps). */
  function PayloadOf(c: ContactInquiry): InsertContactInquiry
  {
    InsertContactInquiry(c.name, c.email, c.phone, c.serviceType, c.message)
  }

  /**
   * `{ ...payload, id, createdAt: new Date() }`: the payload unchanged plus the
   * generated id and the insertion time.
   */
  function NewInquiry(p: InsertContactInquiry, id: string, now: Timestamp): (c: ContactInquiry)
    ensures PayloadOf(c) == p
    ensures c.id == id
    ensures c.createdAt == Some(now)
  {
    ContactInquiry(id, p.name, p.email, p.phone, p.serviceType, p.message, Some(now))
  }

  /** A stored inquiry with a timestamp is exactly its payload plus its id and timestamp. */
  lemma InquiryIsPayloadPlusGenerated(c: ContactInquiry)
    requires c.createdAt.Some?
    ensures NewInquiry(PayloadOf(c), c.id, c.createdAt.value) == c
  {
  }

  /** The user insert payload: only `username` and `password` are picked. */
  datatype InsertUser = InsertUser(username: string, password: string)

  /** A row of `users`: `id` is the primary key. */
  datatype User = User(id: string, username: string, password: string)

  /** `{ ...insertUser, id }`. */
  function NewUser(u: InsertUser, id: string): (r: User)
    ensures r.id == id
    ensures InsertUser(r.username, r.password) == u
  {
    User(id, u.username, u.password)
  }

  /** The `unique()` constraint declared on `users.username`, over the stored users. */
  ghost predicate UsernamesUnique(us: seq<User>)
  {
    forall i, j :: 0 <= i < j < |us| ==> us[i].username != us[j].username
  }

  /**
   * Appending a user keeps the constraint exactly when no stored user already has its
   * username: the check an insert would have to make to enforce it.
   */
  lemma UsernamesUniqueAppend(us: seq<User>, u: User)
    ensures UsernamesUnique(us + [u]) <==>
      UsernamesUnique(us) && forall v :: v in us ==> v.username != u.username
  {
    var vs := us + [u];
    if UsernamesUnique(vs) {
      forall i, j | 0 <= i < j < |us| ensures us[i].username != us[j].username {
        assert vs[i] == us[i] && vs[j] == us[j];
      }
      forall v | v in us ensures v.username != u.username {
        var i :| 0 <= i < |us| && us[i] == v;
        assert vs[i] == v && vs[|us|] == u;
      }
    }
  }

  datatype Service = Service(id: string, name: string, description: string, icon: string)

  datatype Car = Car(
    id: string,
    make: string,
    model: string,
    year: int,
    price: int,
    mileage: int,
    features: seq<string>,
    image: string)

  datatype Testimonial = Testimonial(id: string, name: string, rating: int, text: string, service: string)
}
