/**
 * The profile editor (components/Profile.tsx): form defaults taken from the user,
 * the interest chips, and saving the edited record.
 */
module Profile {
  import opened Wrappers
  import opened Types
  import opened Seqs
  import opened Storage

  /** `user.bio || ''` */
  function InitialBio(u: User): (bio: string)
    ensures u.bio.None? ==> bio == ""
    ensures u.bio.Some? ==> bio == u.bio.value
  {
    u.bio.GetOr("")
  }

  /** `user.interests || []` */
  function InitialInterests(u: User): (xs: seq<string>)
    ensures u.interests.None? ==> xs == []
    ensures u.interests.Some? ==> xs == u.interests.value
  {
    u.interests.GetOr([])
  }

  function IsNot(interest: string): string -> bool {
    (x: string) => x != interest
  }

  function Is(interest: string): string -> bool {
    (x: string) => x == interest
  }

  /**
   * `toggleInterest`: drop every copy of a present interest, keeping every copy of the
   * others in order, or append an absent one at the end.
   */
  function ToggledInterest(xs: seq<string>, interest: string): (r: seq<string>)
    ensures interest in r <==> interest !in xs
    ensures forall x :: x != interest ==> (x in r <==> x in xs)
    ensures interest in xs ==> IsSubsequence(r, xs) && multiset(r) + multiset(Filter(Is(interest), xs)) == multiset(xs)
    ensures interest !in xs ==> r == xs + [interest]
  {
    FilterMembers(IsNot(interest), xs);
    FilterIsSubsequence(IsNot(interest), xs);
    FilterPartition(IsNot(interest), Is(interest), xs);
    if interest in xs then Filter(IsNot(interest), xs) else xs + [interest]
  }

  /** `{ ...user, name, bio, interests }` */
  function Saved(u: User, name: string, bio: string, interests: seq<string>): (r: User)
    ensures r.email == u.email && r.avatar == u.avatar
    ensures r.name == name && r.bio == Some(bio) && r.interests == Some(interests)
  {
    u.(name := name, bio := Some(bio), interests := Some(interests))
  }

  /** Toggling an interest that was absent, twice, restores the list. */
  lemma ToggleAbsentTwice(xs: seq<string>, interest: string)
    requires interest !in xs
    ensures ToggledInterest(ToggledInterest(xs, interest), interest) == xs
  {
    FilterAppend(IsNot(interest), xs, [interest]);
    FilterKeepsAll(IsNot(interest), xs);
  }

  /** Toggling keeps a list of interests free of duplicates. */
  lemma ToggleKeepsNoDuplicates(xs: seq<string>, interest: string)
    requires NoDuplicates(xs)
    ensures NoDuplicates(ToggledInterest(xs, interest))
  {
    if interest in xs {
      FilterNoDuplicates(IsNot(interest), xs);
    }
  }

  /** The profile editor over the shared store. */
  class ProfileEditor {
    const user: User
    const store: Store
    var name: string
    var bio: string
    var interests: seq<string>

    ghost predicate Valid()
      reads this, store
    {
      store.Valid()
    }

    /** The form opens with the user's name, bio and interests, absent ones defaulted. */
    constructor (user: User, store: Store)
      requires store.Valid()
      ensures Valid() && this.user == user && this.store == store
      ensures name == user.name && bio == InitialBio(user) && interests == InitialInterests(user)
    {
      this.user := user;
      this.store := store;
      name := user.name;
      bio := InitialBio(user);
      interests := InitialInterests(user);
    }

    method ToggleInterest(interest: string)
      modifies this
      ensures interests == ToggledInterest(old(interests), interest)
      ensures name == old(name) && bio == old(bio)
    {
      if interest in interests {
        interests := Filter(IsNot(interest), interests);
      } else {
        interests := interests + [interest];
      }
    }

    /**
     * `handleSave`: the edited record is stored as the session user and under
     * `profile_<email>`, and returned as the value handed to `onUpdate`.
     */
    method Save() returns (updated: User)
      requires Valid()
      modifies store
      ensures Valid()
      ensures updated == Saved(user, name, bio, interests)
      ensures store.entries == WithUser(old(store.entries), updated)
      ensures SessionUser(store.entries) == Some(updated) && StoredProfile(store.entries, user.email) == Some(updated)
    {
      updated := Saved(user, name, bio, interests);
      store.SaveUser(updated);
      SaveUserThenRead(old(store.entries), updated);
    }
  }
}
