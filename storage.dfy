/**
 * The key-value store adapter (services/storageService.ts) over the browser's
 * `localStorage`. Records are kept as typed values: JSON encoding is the identity here.
 */
module Storage {
  import opened Wrappers
  import opened Types

  /** What a key can hold: one user record, a task list or a post list. */
  datatype Value = UserRecord(user: User) | TaskList(tasks: seq<Task>) | PostList(posts: seq<Post>)

  const SessionKey: string := "sessionUser"
  const ProfilePrefix: string := "profile_"
  const TasksPrefix: string := "tasks_"
  const PostsPrefix: string := "posts_"

  function ProfileKey(email: string): string { ProfilePrefix + email }
  function TasksKey(email: string): string { TasksPrefix + email }
  function PostsKey(email: string): string { PostsPrefix + email }

  /**
   * The record a key may hold: the session key and `profile_<e>` a user (under
   * `profile_<e>` one whose email is `e`), `tasks_<e>` a task list, `posts_<e>` a post list.
   */
  ghost predicate Fits(key: string, v: Value) {
    && (key == SessionKey ==> v.UserRecord?)
    && (ProfilePrefix <= key ==> v.UserRecord? && v.user.email == key[|ProfilePrefix|..])
    && (TasksPrefix <= key ==> v.TaskList?)
    && (PostsPrefix <= key ==> v.PostList?)
  }

  /** Every key holds a record of the type its namespace promises. */
  ghost predicate WellTyped(m: map<string, Value>) {
    forall key :: key in m ==> Fits(key, m[key])
  }

  /** The four namespaces never share a key, and each key determines its email. */
  lemma KeyFacts(e: string)
    ensures ProfilePrefix <= ProfileKey(e) && ProfileKey(e)[|ProfilePrefix|..] == e
    ensures !(TasksPrefix <= ProfileKey(e)) && !(PostsPrefix <= ProfileKey(e)) && ProfileKey(e) != SessionKey
    ensures TasksPrefix <= TasksKey(e) && TasksKey(e)[|TasksPrefix|..] == e
    ensures !(ProfilePrefix <= TasksKey(e)) && !(PostsPrefix <= TasksKey(e)) && TasksKey(e) != SessionKey
    ensures PostsPrefix <= PostsKey(e) && PostsKey(e)[|PostsPrefix|..] == e
    ensures !(ProfilePrefix <= PostsKey(e)) && !(TasksPrefix <= PostsKey(e)) && PostsKey(e) != SessionKey
    ensures !(ProfilePrefix <= SessionKey) && !(TasksPrefix <= SessionKey) && !(PostsPrefix <= SessionKey)
  {
    assert ProfileKey(e)[0] == 'p' && ProfileKey(e)[1] == 'r';
    assert TasksKey(e)[0] == 't';
    assert PostsKey(e)[0] == 'p' && PostsKey(e)[1] == 'o';
    assert SessionKey[0] == 's';
  }

  /** Keys of different namespaces, or of different emails, are different keys. */
  lemma KeysDistinct(e1: string, e2: string)
    ensures ProfileKey(e1) != TasksKey(e2) && ProfileKey(e1) != PostsKey(e2) && TasksKey(e1) != PostsKey(e2)
    ensures ProfileKey(e1) == ProfileKey(e2) ==> e1 == e2
    ensures TasksKey(e1) == TasksKey(e2) ==> e1 == e2
    ensures PostsKey(e1) == PostsKey(e2) ==> e1 == e2
  {
    KeyFacts(e1);
    KeyFacts(e2);
  }

  // ----- reads -----

  /** `getSessionUser()`: the record under `sessionUser`, or null when the key is absent. */
  function SessionUser(m: map<string, Value>): (u: Option<User>)
    requires WellTyped(m)
    ensures u.None? <==> SessionKey !in m
    ensures u.Some? ==> m[SessionKey] == UserRecord(u.value)
  {
    if SessionKey in m then Some(m[SessionKey].user) else None
  }

  /** The record under `profile_<email>`, or null when the key is absent. */
  function StoredProfile(m: map<string, Value>, email: string): (u: Option<User>)
    requires WellTyped(m)
    ensures u.None? <==> ProfileKey(email) !in m
    ensures u.Some? ==> m[ProfileKey(email)] == UserRecord(u.value) && u.value.email == email
  {
    KeyFacts(email);
    if ProfileKey(email) in m then Some(m[ProfileKey(email)].user) else None
  }

  /** `getUserTasks(email)`: the stored list, or `[]` for an email never written. */
  function TasksOf(m: map<string, Value>, email: string): (ts: seq<Task>)
    requires WellTyped(m)
    ensures TasksKey(email) in m ==> m[TasksKey(email)] == TaskList(ts)
    ensures TasksKey(email) !in m ==> ts == []
  {
    KeyFacts(email);
    if TasksKey(email) in m then m[TasksKey(email)].tasks else []
  }

  /** `getUserPosts(email)`: the stored list, or `[]` for an email never written. */
  function PostsOf(m: map<string, Value>, email: string): (ps: seq<Post>)
    requires WellTyped(m)
    ensures PostsKey(email) in m ==> m[PostsKey(email)] == PostList(ps)
    ensures PostsKey(email) !in m ==> ps == []
  {
    KeyFacts(email);
    if PostsKey(email) in m then m[PostsKey(email)].posts else []
  }

  // ----- writes, as functions of the old map -----

  /** `saveUser(u)`: `sessionUser` then `profile_<u.email>` are set to `u`. */
  function WithUser(m: map<string, Value>, u: User): (r: map<string, Value>)
    requires WellTyped(m)
    ensures WellTyped(r)
    ensures r.Keys == m.Keys + {SessionKey, ProfileKey(u.email)}
  {
    KeyFacts(u.email);
    m[SessionKey := UserRecord(u)][ProfileKey(u.email) := UserRecord(u)]
  }

  /** `logoutUser()`: `sessionUser` is removed. */
  function WithoutSession(m: map<string, Value>): (r: map<string, Value>)
    requires WellTyped(m)
    ensures WellTyped(r)
    ensures r.Keys == m.Keys - {SessionKey}
  {
    m - {SessionKey}
  }

  /** `saveUserTasks(email, ts)` */
  function WithTasks(m: map<string, Value>, email: string, ts: seq<Task>): (r: map<string, Value>)
    requires WellTyped(m)
    ensures WellTyped(r)
    ensures r.Keys == m.Keys + {TasksKey(email)}
  {
    KeyFacts(email);
    m[TasksKey(email) := TaskList(ts)]
  }

  /** `saveUserPosts(email, ps)` */
  function WithPosts(m: map<string, Value>, email: string, ps: seq<Post>): (r: map<string, Value>)
    requires WellTyped(m)
    ensures WellTyped(r)
    ensures r.Keys == m.Keys + {PostsKey(email)}
  {
    KeyFacts(email);
    m[PostsKey(email) := PostList(ps)]
  }

  // ----- what the writes promise to the reads -----

  /** After `saveUser(u)` the session user is `u` and `profile_<u.email>` holds `u`; no task or post list changes. */
  lemma SaveUserThenRead(m: map<string, Value>, u: User)
    requires WellTyped(m)
    ensures SessionUser(WithUser(m, u)) == Some(u)
    ensures StoredProfile(WithUser(m, u), u.email) == Some(u)
    ensures forall e :: e != u.email ==> StoredProfile(WithUser(m, u), e) == StoredProfile(m, e)
    ensures forall e :: TasksOf(WithUser(m, u), e) == TasksOf(m, e) && PostsOf(WithUser(m, u), e) == PostsOf(m, e)
  {
    KeyFacts(u.email);
    forall e ensures TasksOf(WithUser(m, u), e) == TasksOf(m, e) && PostsOf(WithUser(m, u), e) == PostsOf(m, e) {
      KeysDistinct(u.email, e);
      KeyFacts(e);
    }
    forall e | e != u.email ensures StoredProfile(WithUser(m, u), e) == StoredProfile(m, e) {
      KeysDistinct(u.email, e);
      KeyFacts(e);
    }
  }

  /** After `logoutUser()` there is no session user, and every profile, task and post key is as it was. */
  lemma LogoutThenRead(m: map<string, Value>)
    requires WellTyped(m)
    ensures SessionUser(WithoutSession(m)) == None
    ensures forall e :: StoredProfile(WithoutSession(m), e) == StoredProfile(m, e)
    ensures forall e :: TasksOf(WithoutSession(m), e) == TasksOf(m, e) && PostsOf(WithoutSession(m), e) == PostsOf(m, e)
  {
    forall e ensures StoredProfile(WithoutSession(m), e) == StoredProfile(m, e)
      && TasksOf(WithoutSession(m), e) == TasksOf(m, e) && PostsOf(WithoutSession(m), e) == PostsOf(m, e)
    {
      KeyFacts(e);
    }
  }

  /** `saveUserTasks(e, ts)` then `getUserTasks(e)` returns `ts`; no other email's tasks, no posts, no profile and no session change. */
  lemma SaveTasksThenRead(m: map<string, Value>, email: string, ts: seq<Task>)
    requires WellTyped(m)
    ensures TasksOf(WithTasks(m, email, ts), email) == ts
    ensures forall e :: e != email ==> TasksOf(WithTasks(m, email, ts), e) == TasksOf(m, e)
    ensures forall e :: PostsOf(WithTasks(m, email, ts), e) == PostsOf(m, e)
    ensures forall e :: StoredProfile(WithTasks(m, email, ts), e) == StoredProfile(m, e)
    ensures SessionUser(WithTasks(m, email, ts)) == SessionUser(m)
  {
    KeyFacts(email);
    forall e ensures (e != email ==> TasksOf(WithTasks(m, email, ts), e) == TasksOf(m, e))
      && PostsOf(WithTasks(m, email, ts), e) == PostsOf(m, e)
      && StoredProfile(WithTasks(m, email, ts), e) == StoredProfile(m, e)
    {
      KeysDistinct(email, e);
      KeysDistinct(e, email);
    }
  }

  /** `saveUserPosts(e, ps)` then `getUserPosts(e)` returns `ps`; no other email's posts, no tasks, no profile and no session change. */
  lemma SavePostsThenRead(m: map<string, Value>, email: string, ps: seq<Post>)
    requires WellTyped(m)
    ensures PostsOf(WithPosts(m, email, ps), email) == ps
    ensures forall e :: e != email ==> PostsOf(WithPosts(m, email, ps), e) == PostsOf(m, e)
    ensures forall e :: TasksOf(WithPosts(m, email, ps), e) == TasksOf(m, e)
    ensures forall e :: StoredProfile(WithPosts(m, email, ps), e) == StoredProfile(m, e)
    ensures SessionUser(WithPosts(m, email, ps)) == SessionUser(m)
  {
    KeyFacts(email);
    forall e ensures (e != email ==> PostsOf(WithPosts(m, email, ps), e) == PostsOf(m, e))
      && TasksOf(WithPosts(m, email, ps), e) == TasksOf(m, e)
      && StoredProfile(WithPosts(m, email, ps), e) == StoredProfile(m, e)
    {
      KeysDistinct(email, e);
      KeysDistinct(e, email);
    }
  }

  /** `localStorage` as the services see it. */
  class Store {
    var entries: map<string, Value>

    ghost predicate Valid()
      reads this
    {
      WellTyped(entries)
    }

    /** The browser's storage as the application finds it. */
    constructor (initial: map<string, Value>)
      requires WellTyped(initial)
      ensures Valid() && entries == initial
    {
      entries := initial;
    }

    /** `saveUser`: two writes in sequence, session first. */
    method SaveUser(u: User)
      requires Valid()
      modifies this
      ensures Valid()
      ensures entries == WithUser(old(entries), u)
    {
      KeyFacts(u.email);
      entries := entries[SessionKey := UserRecord(u)];
      entries := entries[ProfileKey(u.email) := UserRecord(u)];
    }

    method GetSessionUser() returns (u: Option<User>)
      requires Valid()
      ensures u == SessionUser(entries)
      ensures u.None? <==> SessionKey !in entries
    {
      if SessionKey in entries {
        u := Some(entries[SessionKey].user);
      } else {
        u := None;
      }
    }

    method LogoutUser()
      requires Valid()
      modifies this
      ensures Valid()
      ensures entries == WithoutSession(old(entries))
    {
      entries := entries - {SessionKey};
    }

    /** The direct `localStorage.getItem('profile_' + email)` read of the login form. */
    method GetStoredProfile(email: string) returns (u: Option<User>)
      requires Valid()
      ensures u == StoredProfile(entries, email)
    {
      KeyFacts(email);
      if ProfileKey(email) in entries {
        u := Some(entries[ProfileKey(email)].user);
      } else {
        u := None;
      }
    }

    method GetUserTasks(email: string) returns (ts: seq<Task>)
      requires Valid()
      ensures ts == TasksOf(entries, email)
      ensures TasksKey(email) !in entries ==> ts == []
    {
      KeyFacts(email);
      if TasksKey(email) in entries {
        ts := entries[TasksKey(email)].tasks;
      } else {
        ts := [];
      }
    }

    method SaveUserTasks(email: string, ts: seq<Task>)
      requires Valid()
      modifies this
      ensures Valid()
      ensures entries == WithTasks(old(entries), email, ts)
    {
      KeyFacts(email);
      entries := entries[TasksKey(email) := TaskList(ts)];
    }

    method GetUserPosts(email: string) returns (ps: seq<Post>)
      requires Valid()
      ensures ps == PostsOf(entries, email)
      ensures PostsKey(email) !in entries ==> ps == []
    {
      KeyFacts(email);
      if PostsKey(email) in entries {
        ps := entries[PostsKey(email)].posts;
      } else {
        ps := [];
      }
    }

    method SaveUserPosts(email: string, ps: seq<Post>)
      requires Valid()
      modifies this
      ensures Valid()
      ensures entries == WithPosts(old(entries), email, ps)
    {
      KeyFacts(email);
      entries := entries[PostsKey(email) := PostList(ps)];
    }
  }
}
