/**
 * MemStorage: the in-memory repository behind the API. Two tables grow in place
 * (users and contact inquiries, each a JavaScript `Map` keyed by id); the three
 * catalogues are fixed at construction.
 *
 * The generated id (`randomUUID()`) and the current time (`new Date()`) are
 * parameters of the operations that use them.
 */
module Storage {
  import opened Wrappers
  import opened OrderedMaps
  import opened Schema
  import SeedData

  /**
   * `Array.prototype.find` over users by username: `r` is the earliest user in `us`
   * with that username, or None when there is none.
   */
  ghost predicate IsFirstWithUsername(us: seq<User>, username: string, r: Option<User>)
  {
    match r
    case None => forall i :: 0 <= i < |us| ==> us[i].username != username
    case Some(u) =>
      exists i :: 0 <= i < |us| && us[i] == u && u.username == username &&
        forall j :: 0 <= j < i ==> us[j].username != username
  }

  /** The first-match description determines the answer. */
  lemma FirstWithUsernameIsUnique(us: seq<User>, username: string, r1: Option<User>, r2: Option<User>)
    requires IsFirstWithUsername(us, username, r1) && IsFirstWithUsername(us, username, r2)
    ensures r1 == r2
  {
  }

  /** Every stored record sits under its own id. */
  ghost predicate KeyedById(users: OrderedMap<User>, inquiries: OrderedMap<ContactInquiry>)
  {
    && (forall id :: id in users.entries ==> users.entries[id].id == id)
    && (forall id :: id in inquiries.entries ==> inquiries.entries[id].id == id)
  }

  /**
   * Two users with the same username, created under distinct fresh ids, are both
   * stored in call order: `createUser` does not enforce the declared unique constraint.
   */
  lemma DuplicateUsernamesAreStored(m: OrderedMap<User>, a: InsertUser, id1: string, b: InsertUser, id2: string)
    requires m.Valid() && id1 !in m.entries && id2 !in m.entries && id1 != id2
    requires a.username == b.username
    ensures m.Set(id1, NewUser(a, id1)).Set(id2, NewUser(b, id2)).Values() == m.Values() + [NewUser(a, id1), NewUser(b, id2)]
    ensures !UsernamesUnique(m.Set(id1, NewUser(a, id1)).Set(id2, NewUser(b, id2)).Values())
  {
    var u1, u2 := NewUser(a, id1), NewUser(b, id2);
    SetTwiceFresh(m, id1, u1, id2, u2);
    var vs := m.Values() + [u1, u2];
    var n := |m.Values()|;
    assert vs[n] == u1 && vs[n + 1] == u2;
  }

  /**
   * When the username was new to the store, lookup after two such creations yields
   * the earlier of the two users.
   */
  lemma DuplicateUsernameLookupFindsFirst(m: OrderedMap<User>, a: InsertUser, id1: string, b: InsertUser, id2: string)
    requires m.Valid() && id1 !in m.entries && id2 !in m.entries && id1 != id2
    requires a.username == b.username
    requires forall u :: u in m.Values() ==> u.username != a.username
    ensures IsFirstWithUsername(m.Set(id1, NewUser(a, id1)).Set(id2, NewUser(b, id2)).Values(), a.username, Some(NewUser(a, id1)))
  {
    var u1, u2 := NewUser(a, id1), NewUser(b, id2);
    SetTwiceFresh(m, id1, u1, id2, u2);
    var vs := m.Values() + [u1, u2];
    var n := |m.Values()|;
    assert vs[n] == u1;
    forall j | 0 <= j < n
      ensures vs[j].username != a.username
    {
      assert vs[j] == m.Values()[j];
    }
  }

  class MemStorage {
    var users: OrderedMap<User>
    var contactInquiries: OrderedMap<ContactInquiry>
    const services: seq<Service> := SeedData.Services()
    const cars: seq<Car> := SeedData.Cars()
    const testimonials: seq<Testimonial> := SeedData.Testimonials()

    /** Both tables are well-formed maps keyed by record id. */
    ghost predicate Valid()
      reads this
    {
      && users.Valid()
      && contactInquiries.Valid()
      && KeyedById(users, contactInquiries)
    }

    /** Empty tables; the catalogues are constants holding the seeds. */
    constructor ()
      ensures Valid()
      ensures users.Values() == [] && contactInquiries.Values() == []
    {
      users := Empty();
      contactInquiries := Empty();
    }

    /** `users.get(id)`: the user stored under `id`, whose own id is `id`, or None. */
    method GetUser(id: string) returns (r: Option<User>)
      requires Valid()
      ensures r == users.Get(id)
      ensures r.Some? ==> r.value.id == id && r.value in users.Values()
    {
      r := users.Get(id);
      if r.Some? {
        ValuesAreEntries(users, r.value);
      }
    }

    /** Linear search over the users in insertion order for the first matching username. */
    method GetUserByUsername(username: string) returns (r: Option<User>)
      requires Valid()
      ensures IsFirstWithUsername(users.Values(), username, r)
    {
      var all := users.Values();
      var i := 0;
      while i < |all|
        invariant 0 <= i <= |all|
        invariant forall j :: 0 <= j < i ==> all[j].username != username
      {
        if all[i].username == username {
          r := Some(all[i]);
          assert IsFirstWithUsername(all, username, r);
          return;
        }
        i := i + 1;
      }
      return None;
    }

    /**
     * Stores the payload plus the generated id. A fresh id appends the user; a
     * colliding id overwrites the earlier user in place. No username check is made.
     */
    method CreateUser(insertUser: InsertUser, id: string) returns (u: User)
      requires Valid()
      modifies this
      ensures Valid()
      ensures u == NewUser(insertUser, id)
      ensures users == old(users).Set(id, u)
      ensures users.Get(id) == Some(u)
      ensures id !in old(users.entries) ==> users.Values() == old(users.Values()) + [u]
      ensures contactInquiries == old(contactInquiries)
    {
      u := NewUser(insertUser, id);
      if id !in users.entries {
        SetFreshAppends(users, id, u);
      }
      users := users.Set(id, u);
    }

    /**
     * Stores the payload stamped with the generated id and the current time. A fresh
     * id appends the inquiry; earlier inquiries, users and catalogues are untouched.
     */
    method CreateContactInquiry(inquiry: InsertContactInquiry, id: string, now: Timestamp) returns (c: ContactInquiry)
      requires Valid()
      modifies this
      ensures Valid()
      ensures c == NewInquiry(inquiry, id, now)
      ensures contactInquiries == old(contactInquiries).Set(id, c)
      ensures id !in old(contactInquiries.entries) ==>
        contactInquiries.Values() == old(contactInquiries.Values()) + [c]
      ensures users == old(users)
    {
      c := NewInquiry(inquiry, id, now);
      if id !in contactInquiries.entries {
        SetFreshAppends(contactInquiries, id, c);
      }
      contactInquiries := contactInquiries.Set(id, c);
    }

    /** All inquiries, in the order their ids were first stored. */
    method GetContactInquiries() returns (r: seq<ContactInquiry>)
      requires Valid()
      ensures r == contactInquiries.Values()
      ensures |r| == |contactInquiries.keys|
      ensures forall i :: 0 <= i < |r| ==> r[i].id == contactInquiries.keys[i]
    {
      r := contactInquiries.Values();
    }

    method GetServices() returns (r: seq<Service>)
      ensures r == SeedData.Services()
    {
      r := services;
    }

    method GetCars() returns (r: seq<Car>)
      ensures r == SeedData.Cars()
    {
      r := cars;
    }

    method GetTestimonials() returns (r: seq<Testimonial>)
      ensures r == SeedData.Testimonials()
    {
      r := testimonials;
    }
  }

  /**
   * Two submissions of the same payload under two distinct ids on a fresh store:
   * both are listed, in submission order, each with its own id and the payload intact.
   */
  method SubmitTwice(p: InsertContactInquiry, id1: string, t1: Timestamp, id2: string, t2: Timestamp)
    returns (listed: seq<ContactInquiry>)
    requires id1 != id2
    ensures |listed| == 2
    ensures listed[0].id == id1 && listed[1].id == id2
    ensures PayloadOf(listed[0]) == p && PayloadOf(listed[1]) == p
    ensures listed[0].createdAt == Some(t1) && listed[1].createdAt == Some(t2)
  {
    var store := new MemStorage();
    var c1 := store.CreateContactInquiry(p, id1, t1);
    var c2 := store.CreateContactInquiry(p, id2, t2);
    listed := store.GetContactInquiries();
  }

  /**
   * Two registrations with one username under two distinct ids on a fresh store:
   * both users are kept, and lookup by the username finds the first.
   */
  method RegisterSameUsernameTwice(a: InsertUser, id1: string, b: InsertUser, id2: string)
    returns (first: Option<User>, second: Option<User>, byName: Option<User>)
    requires id1 != id2 && a.username == b.username
    ensures first == Some(NewUser(a, id1)) && second == Some(NewUser(b, id2))
    ensures byName == first
  {
    var store := new MemStorage();
    var u1 := store.CreateUser(a, id1);
    var u2 := store.CreateUser(b, id2);
    first := store.GetUser(id1);
    second := store.GetUser(id2);
    byName := store.GetUserByUsername(a.username);
    assert store.users.Values() == [u1, u2];
    assert IsFirstWithUsername(store.users.Values(), a.username, Some(u1)) by {
      assert store.users.Values()[0] == u1;
    }
    FirstWithUsernameIsUnique(store.users.Values(), a.username, byName, Some(u1));
  }
}
